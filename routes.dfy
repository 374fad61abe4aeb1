/** The routers: the bearer-token guard both protected routers run before
    their handlers, and the request schemas they declare. */
module Routes {
  import opened Types
  import opened Text
  import TransactionStore
  import Dashboard

  const Bearer: string := "Bearer "

  /** The guard's verdict: the derived `user`, or the status it sets and the
      error it throws. */
  datatype GuardResult = Admitted(user: Profile) | Refused(status: int, error: AppError)

  /** The header begins with the "Bearer " scheme. */
  predicate StartsWithBearer(auth: string)
  {
    |Bearer| <= |auth| && auth[..|Bearer|] == Bearer
  }

  /** The token: the second space-separated piece of the header, i.e. the text
      after the first space up to the next one. */
  function BearerToken(auth: string): (token: string)
    requires StartsWithBearer(auth)
    ensures ' ' !in token
    ensures token == Split(auth[|Bearer|..], ' ')[0]
  {
    assert auth == "Bearer" + [' '] + auth[|Bearer|..];
    SplitAfterPrefix("Bearer", ' ', auth[|Bearer|..]);
    SplitPieces(auth, ' ');
    Split(auth, ' ')[1]
  }

  /** The `derive` step of both protected routers. Token verification is a
      parameter: it gives the token's claims, or nothing for a forged or
      expired token. */
  function Derive(header: Option<string>, verify: string -> Option<Profile>): (r: GuardResult)
    ensures r.Refused? ==> r.status == 401 && r.error.AuthenticationError?
    ensures !Truthy(header) || !StartsWithBearer(header.value) ==> r == Refused(401, AuthenticationError(MsgPleaseSignIn))
    ensures Truthy(header) && StartsWithBearer(header.value) ==>
      (r.Admitted? <==> verify(BearerToken(header.value)).Some?)
      && (r.Admitted? ==> r.user == verify(BearerToken(header.value)).value)
      && (r.Refused? ==> r.error == AuthenticationError(MsgBadToken))
  {
    if !Truthy(header) || !StartsWithBearer(header.value) then Refused(401, AuthenticationError(MsgPleaseSignIn))
    else
      var profile := verify(BearerToken(header.value));
      if profile.None? then Refused(401, AuthenticationError(MsgBadToken))
      else Admitted(profile.value)
  }

  /** A header built from a space-free token gives that token back. */
  lemma BearerTokenRoundTrip(token: string)
    requires ' ' !in token
    ensures StartsWithBearer(Bearer + token)
    ensures BearerToken(Bearer + token) == token
  {
    var auth := Bearer + token;
    assert auth[|Bearer|..] == token;
    SplitWithoutSeparator(token, ' ');
  }

  /** A second space after "Bearer" makes the token empty. */
  lemma DoubleSpaceGivesEmptyToken(rest: string)
    ensures StartsWithBearer(Bearer + " " + rest)
    ensures BearerToken(Bearer + " " + rest) == ""
  {
    var auth := Bearer + " " + rest;
    assert auth[|Bearer|..] == [] + [' '] + rest;
    SplitAfterPrefix([], ' ', rest);
  }

  /** A valid token in a well-formed header admits exactly its claims, whatever
      the verifier says of other tokens. */
  lemma DeriveAdmitsVerifiedProfile(token: string, verify: string -> Option<Profile>, p: Profile)
    requires ' ' !in token && verify(token) == Some(p)
    ensures Derive(Some(Bearer + token), verify) == Admitted(p)
  {
    BearerTokenRoundTrip(token);
  }

  // ---------------------------------------------------------------------------
  // Schemas
  // ---------------------------------------------------------------------------

  /** A create body as it arrives; numeric strings for `amount` are not modelled. */
  datatype RawCreate = RawCreate(
    title: Option<string>,
    amount: Option<real>,
    txType: Option<string>,
    categoryName: Option<string>,
    date: Option<string>,
    note: Option<string>)

  /** The create schema: a title and a category name of at least one character,
      an amount of at least 1 and a type from the enum; date and note optional. */
  function CheckCreate(raw: RawCreate): (r: Option<TransactionStore.CreateBody>)
    ensures r.Some? <==>
      Truthy(raw.title) && raw.amount.Some? && raw.amount.value >= 1.0
      && raw.txType.Some? && TypeFromName(raw.txType.value).Some? && Truthy(raw.categoryName)
    ensures r.Some? ==> r.value.amount >= 1.0 && r.value.title != [] && r.value.categoryName != []
  {
    if Truthy(raw.title) && raw.amount.Some? && raw.amount.value >= 1.0
       && raw.txType.Some? && TypeFromName(raw.txType.value).Some? && Truthy(raw.categoryName)
    then Some(TransactionStore.CreateBody(raw.title.value, raw.amount.value, TypeFromName(raw.txType.value).value,
                                          raw.categoryName.value, raw.date, raw.note))
    else None
  }

  /** The body a client sends for a create body. */
  function RawOf(b: TransactionStore.CreateBody): RawCreate
  {
    RawCreate(Some(b.title), Some(b.amount), Some(TypeName(b.txType)), Some(b.categoryName), b.date, b.note)
  }

  /** The schema admits a body exactly when it is the raw form of a body meeting
      the constraints, and gives that body back unchanged. */
  lemma CheckCreateRoundTrip(raw: RawCreate, b: TransactionStore.CreateBody)
    ensures CheckCreate(raw) == Some(b) <==>
      raw == RawOf(b) && b.title != [] && b.amount >= 1.0 && b.categoryName != []
  {
    if raw == RawOf(b) {
      TypeNameRoundTrip(b.txType);
    }
  }

  /** An update body as it arrives. The schema declares `category`, not the
      `categoryId` the handler reads. */
  datatype RawUpdate = RawUpdate(
    title: Option<string>,
    amount: Option<real>,
    txType: Option<string>,
    category: Option<string>,
    date: Option<string>,
    note: Option<string>)

  /** The update schema: every field optional; a present title or category is
      non-empty, a present amount at least 1, a present type from the enum. */
  predicate UpdateValid(raw: RawUpdate): (ok: bool)
    ensures raw.title.None? && raw.amount.None? && raw.txType.None? && raw.category.None? ==> ok
    ensures raw.title == Some("") || raw.category == Some("") ==> !ok
    ensures raw.amount.Some? && raw.amount.value < 1.0 ==> !ok
    ensures ok ==> raw.txType.None? || raw.txType == Some("INCOME") || raw.txType == Some("EXPENSE")
  {
    && (raw.title.Some? ==> Truthy(raw.title))
    && (raw.amount.Some? ==> raw.amount.value >= 1.0)
    && (raw.txType.Some? ==> TypeFromName(raw.txType.value).Some?)
    && (raw.category.Some? ==> Truthy(raw.category))
  }

  /** The patch an admitted update body yields: the declared fields only, so the
      handler never sees a `categoryId`. */
  function CheckUpdate(raw: RawUpdate): (r: Option<TransactionStore.Patch>)
    ensures r.Some? <==> UpdateValid(raw)
    ensures r.Some? ==> r.value.categoryId.None?
    ensures r.Some? ==> (r.value.amount.Some? ==> r.value.amount.value >= 1.0)
    ensures r.Some? ==> (r.value.title.Some? ==> r.value.title.value != [])
    ensures r.Some? ==> r.value.title == raw.title && r.value.amount == raw.amount
    ensures r.Some? ==> r.value.date == raw.date && r.value.note == raw.note
    ensures r.Some? ==> (r.value.txType.Some? <==> raw.txType.Some?)
    ensures r.Some? && r.value.txType.Some? ==> TypeName(r.value.txType.value) == raw.txType.value
  {
    if UpdateValid(raw) then
      Some(TransactionStore.Patch(raw.title, raw.amount,
        if raw.txType.Some? then TypeFromName(raw.txType.value) else None,
        raw.date, raw.note, None))
    else None
  }

  /** An empty update body is admitted and changes nothing. */
  lemma EmptyUpdateChangesNothing(tx: Tx, parseDate: string -> Instant)
    ensures CheckUpdate(RawUpdate(None, None, None, None, None, None)).Some?
    ensures TransactionStore.ApplyPatch(tx, CheckUpdate(RawUpdate(None, None, None, None, None, None)).value, parseDate) == tx
  {
  }

  /** The `:id` parameter of update and delete: it must read as a number. */
  function IdParam(s: string): (r: Option<int>)
    ensures r.Some? <==> Trim(s) != [] && JsNumber(s).Some?
    ensures r.Some? ==> r == JsNumber(s)
  {
    if Trim(s) != [] then JsNumber(s) else None
  }

  lemma IdParamShowNat(n: nat)
    ensures IdParam(ShowNat(n)) == Some(n)
  {
    TrimDigits(ShowNat(n));
    JsNumberShowNat(n);
  }

  /** A digit string, with or without a leading "+" and leading zeros
      included (`"05"`, `"+05"`), is accepted as its decimal value. */
  lemma IdParamDigits(d: string)
    requires |d| >= 1 && AllDigits(d)
    ensures IdParam(d) == Some(DigitsValue(d))
    ensures IdParam("+" + d) == Some(DigitsValue(d))
  {
    JsNumberDigits(d);
    TrimDigits(d);
    SignedUntrimmed('+', d);
  }

  /** The dashboard query schema: only the two optional date strings reach the
      handler; every other key is ignored. */
  function DashQueryOf(raw: map<string, string>): (q: Dashboard.DashQuery)
    ensures q.startDate == (if "startDate" in raw then Some(raw["startDate"]) else None)
    ensures q.endDate == (if "endDate" in raw then Some(raw["endDate"]) else None)
  {
    Dashboard.DashQuery(
      if "startDate" in raw then Some(raw["startDate"]) else None,
      if "endDate" in raw then Some(raw["endDate"]) else None)
  }

  lemma DashQueryIgnoresOtherKeys(raw: map<string, string>, k: string, v: string)
    requires k != "startDate" && k != "endDate"
    ensures DashQueryOf(raw[k := v]) == DashQueryOf(raw)
  {
  }
}
