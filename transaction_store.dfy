/** The state-changing transaction handlers — `create`, `update` and `delete` —
    over an abstract store of transaction and category rows. */
module TransactionStore {
  import opened Types

  const PlaceholderIcon: string := "❓"
  const PlaceholderColor: string := "#cccccc"

  const MsgCreated: string := "บันทึกสำเร็จเรียบร้อยครับ"
  const MsgUpdateNotFound: string := "ไม่พบรายการที่ต้องการแก้ไข หรือคุณไม่มีสิทธิ์ในรายการนี้"
  const MsgUpdateFailed: string := "เกิดข้อผิดพลาดภายในระบบ ไม่สามารถแก้ไขข้อมูลได้"
  const MsgDeleted: string := "ลบข้อมูลเรียบร้อย"
  const MsgDeleteNotFound: string := "ไม่พบรายการ หรือคุณไม่มีสิทธิ์ลบ"

  /** A create body as the route admits it. */
  datatype CreateBody = CreateBody(
    title: string,
    amount: real,
    txType: TxType,
    categoryName: string,
    date: Option<string>,
    note: Option<string>)

  /** The 201 answer of `create`. */
  datatype Created = Created(status: int, message: string, tx: Tx)

  /** The fields of an update body that the handler reads; each may be absent. */
  datatype Patch = Patch(
    title: Option<string>,
    amount: Option<real>,
    txType: Option<TxType>,
    date: Option<string>,
    note: Option<string>,
    categoryId: Option<int>)

  /** The answer of `update`: the updated row, or an error message. */
  datatype UpdateReply = UpdateSuccess(tx: Tx) | UpdateError(message: string)

  /** The answer of `delete`: a success message, or status 404 with a message. */
  datatype DeleteReply = DeleteSuccess(message: string) | DeleteNotFound(status: int, message: string)

  // ---------------------------------------------------------------------------
  // Categories: lookup by (name, userId) and connect-or-create
  // ---------------------------------------------------------------------------

  predicate NamedBy(c: Category, name: string, userId: int)
  {
    c.name == name && c.userId == userId
  }

  /** Category ids are assigned in insertion order, starting at 1. */
  ghost predicate SequentialIds(cats: seq<Category>)
  {
    forall i :: 0 <= i < |cats| ==> cats[i].id == i + 1
  }

  /** The store's unique constraint on (name, userId). */
  ghost predicate UniqueNames(cats: seq<Category>)
  {
    forall i, j :: 0 <= i < j < |cats| ==> !(cats[i].name == cats[j].name && cats[i].userId == cats[j].userId)
  }

  /** The position of the user's category with that name, if there is one. */
  function FindCategory(cats: seq<Category>, name: string, userId: int): (r: Option<nat>)
    ensures r.Some? ==> r.value < |cats| && NamedBy(cats[r.value], name, userId)
    ensures r.None? ==> forall i :: 0 <= i < |cats| ==> !NamedBy(cats[i], name, userId)
    decreases |cats|
  {
    if cats == [] then None
    else if NamedBy(cats[0], name, userId) then Some(0)
    else
      var rest := FindCategory(cats[1..], name, userId);
      if rest.Some? then Some(rest.value + 1) else None
  }

  /** `connectOrCreate` on `name_userId`: the categories afterwards and the id the
      new transaction links to. */
  function ConnectOrCreate(cats: seq<Category>, name: string, userId: int, t: TxType): (r: (seq<Category>, int))
    ensures |cats| <= |r.0| <= |cats| + 1 && r.0[..|cats|] == cats
    ensures |r.0| == |cats| + 1 ==> r.0[|cats|].name == name && r.0[|cats|].userId == userId && r.1 == |r.0|
  {
    var found := FindCategory(cats, name, userId);
    if found.Some? then (cats, cats[found.value].id)
    else
      var id := |cats| + 1;
      (cats + [Category(id, name, t, userId, PlaceholderIcon, PlaceholderColor)], id)
  }

  /** Connect-or-create links to the user's category of that name: the existing
      one, leaving the categories as they were, or else exactly one new category
      with the transaction's type and the placeholder icon and colour. */
  lemma ConnectOrCreateLinks(cats: seq<Category>, name: string, userId: int, t: TxType)
    requires SequentialIds(cats)
    ensures var (cats', id) := ConnectOrCreate(cats, name, userId, t);
      && 1 <= id <= |cats'|
      && NamedBy(cats'[id - 1], name, userId)
      && ((exists i :: 0 <= i < |cats| && NamedBy(cats[i], name, userId)) ==> cats' == cats)
      && ((forall i :: 0 <= i < |cats| ==> !NamedBy(cats[i], name, userId)) ==>
            cats' == cats + [Category(|cats| + 1, name, t, userId, PlaceholderIcon, PlaceholderColor)])
  {
  }

  /** Connect-or-create keeps ids sequential and (name, userId) unique. */
  lemma ConnectOrCreateKeepsConstraints(cats: seq<Category>, name: string, userId: int, t: TxType)
    requires SequentialIds(cats) && UniqueNames(cats)
    ensures SequentialIds(ConnectOrCreate(cats, name, userId, t).0)
    ensures UniqueNames(ConnectOrCreate(cats, name, userId, t).0)
  {
  }

  /** A second transaction with the same category name (whatever its type)
      creates nothing more and links to the same category. */
  lemma ConnectOrCreateTwice(cats: seq<Category>, name: string, userId: int, t1: TxType, t2: TxType)
    requires SequentialIds(cats)
    ensures var (cats1, id1) := ConnectOrCreate(cats, name, userId, t1);
      ConnectOrCreate(cats1, name, userId, t2) == (cats1, id1)
      && |cats1| <= |cats| + 1
  {
    var (cats1, id1) := ConnectOrCreate(cats, name, userId, t1);
    ConnectOrCreateLinks(cats, name, userId, t1);
    ConnectOrCreateLinks(cats1, name, userId, t2);
  }

  // ---------------------------------------------------------------------------
  // Partial update
  // ---------------------------------------------------------------------------

  /** The update: supplied fields replace the row's; an absent field, and a falsy
      `amount`, `date` or `categoryId` (0 or empty), leave the row's value. */
  function ApplyPatch(tx: Tx, p: Patch, parseDate: string -> Instant): (r: Tx)
    ensures r.id == tx.id && r.userId == tx.userId
  {
    tx.(
      title := if p.title.Some? then p.title.value else tx.title,
      amount := if p.amount.Some? && p.amount.value != 0.0 then p.amount.value else tx.amount,
      txType := if p.txType.Some? then p.txType.value else tx.txType,
      date := if Truthy(p.date) then parseDate(p.date.value) else tx.date,
      note := if p.note.Some? then p.note else tx.note,
      categoryId := if p.categoryId.Some? && p.categoryId.value != 0 then p.categoryId.value else tx.categoryId)
  }

  /** A patch that supplies nothing truthy changes nothing. */
  lemma EmptyPatchIsIdentity(tx: Tx, parseDate: string -> Instant, amount: Option<real>, date: Option<string>, categoryId: Option<int>)
    requires amount in {None, Some(0.0)} && date in {None, Some("")} && categoryId in {None, Some(0)}
    ensures ApplyPatch(tx, Patch(None, amount, None, date, None, categoryId), parseDate) == tx
  {
  }

  /** Applying the same patch twice is applying it once. */
  lemma ApplyPatchIdempotent(tx: Tx, p: Patch, parseDate: string -> Instant)
    ensures ApplyPatch(ApplyPatch(tx, p, parseDate), p, parseDate) == ApplyPatch(tx, p, parseDate)
  {
  }

  /** Only supplied fields change: a field the patch leaves out keeps the row's
      value, and so does an amount, date or category id supplied falsy (0 or
      empty), whatever else the patch holds; a supplied truthy field replaces it. */
  lemma ApplyPatchFrame(tx: Tx, p: Patch, parseDate: string -> Instant)
    ensures var r := ApplyPatch(tx, p, parseDate);
      && (p.title.None? ==> r.title == tx.title)
      && (p.amount.None? || p.amount == Some(0.0) ==> r.amount == tx.amount)
      && (p.txType.None? ==> r.txType == tx.txType)
      && (!Truthy(p.date) ==> r.date == tx.date)
      && (p.note.None? ==> r.note == tx.note)
      && (p.categoryId.None? || p.categoryId == Some(0) ==> r.categoryId == tx.categoryId)
    ensures var r := ApplyPatch(tx, p, parseDate);
      && (p.title.Some? ==> r.title == p.title.value)
      && (p.amount.Some? && p.amount.value != 0.0 ==> r.amount == p.amount.value)
      && (p.txType.Some? ==> r.txType == p.txType.value)
      && (Truthy(p.date) ==> r.date == parseDate(p.date.value))
      && (p.note.Some? ==> r.note == p.note)
      && (p.categoryId.Some? && p.categoryId.value != 0 ==> r.categoryId == p.categoryId.value)
  {
  }

  /** The row with that id exists and belongs to the user. */
  predicate Owns(txs: map<int, Tx>, userId: int, id: int)
  {
    id in txs && txs[id].userId == userId
  }

  /** A supplied category id must name an existing category, or the store rejects
      the update. */
  predicate CategoryAccepted(p: Patch, cats: seq<Category>)
  {
    p.categoryId.Some? && p.categoryId.value != 0 ==> 1 <= p.categoryId.value <= |cats|
  }

  // ---------------------------------------------------------------------------
  // The store
  // ---------------------------------------------------------------------------

  class Store {
    /** Transaction rows by id. */
    var txs: map<int, Tx>
    /** Category rows in insertion order; the row at position i has id i + 1. */
    var cats: seq<Category>
    /** The next transaction id the store hands out. */
    var nextTxId: int

    ghost predicate Valid()
      reads this
    {
      && nextTxId >= 1
      && SequentialIds(cats)
      && UniqueNames(cats)
      && (forall k :: k in txs ==> txs[k].id == k && 1 <= k < nextTxId && 1 <= txs[k].categoryId <= |cats|)
    }

    constructor ()
      ensures Valid() && txs == map[] && cats == [] && nextTxId == 1
    {
      txs := map[];
      cats := [];
      nextTxId := 1;
    }

    /** `transaction.create`: reject a falsy user id, link the new row to the
        user's category of that name (creating it if missing), default the date
        to now. */
    method Create(user: Profile, body: CreateBody, parseDate: string -> Instant, now: Instant)
      returns (r: Outcome<Created>)
      requires Valid()
      modifies this
      ensures Valid()
      ensures TruthyId(user).None? ==>
        r == Thrown(AuthenticationError(MsgPleaseSignIn))
        && txs == old(txs) && cats == old(cats) && nextTxId == old(nextTxId)
      ensures TruthyId(user).Some? ==>
        var userId := TruthyId(user).value;
        var (cats', categoryId) := ConnectOrCreate(old(cats), body.categoryName, userId, body.txType);
        var date := if Truthy(body.date) then parseDate(body.date.value) else now;
        var tx := Tx(old(nextTxId), body.title, body.amount, body.txType, date, body.note, userId, categoryId);
        && cats == cats'
        && txs == old(txs)[old(nextTxId) := tx]
        && nextTxId == old(nextTxId) + 1
        && r == Done(Created(201, MsgCreated, tx))
    {
      var userId := TruthyId(user);
      if userId.None? {
        return Thrown(AuthenticationError(MsgPleaseSignIn));
      }
      ConnectOrCreateLinks(cats, body.categoryName, userId.value, body.txType);
      ConnectOrCreateKeepsConstraints(cats, body.categoryName, userId.value, body.txType);
      var (cats', categoryId) := ConnectOrCreate(cats, body.categoryName, userId.value, body.txType);
      var date := if Truthy(body.date) then parseDate(body.date.value) else now;
      var tx := Tx(nextTxId, body.title, body.amount, body.txType, date, body.note, userId.value, categoryId);
      cats := cats';
      txs := txs[nextTxId := tx];
      nextTxId := nextTxId + 1;
      r := Done(Created(201, MsgCreated, tx));
    }

    /** `transaction.update`: never throws. A missing user or a store failure
        gives the generic error, a row that is absent or not the user's gives
        the not-found error; in every error case nothing changes. */
    method Update(user: Option<Profile>, id: int, patch: Patch, parseDate: string -> Instant)
      returns (r: UpdateReply)
      requires Valid()
      modifies this
      ensures Valid()
      ensures cats == old(cats) && nextTxId == old(nextTxId)
      ensures SignedInId(user).None? ==> r == UpdateError(MsgUpdateFailed) && txs == old(txs)
      ensures SignedInId(user).Some? && !Owns(old(txs), SignedInId(user).value, id) ==>
        r == UpdateError(MsgUpdateNotFound) && txs == old(txs)
      ensures SignedInId(user).Some? && Owns(old(txs), SignedInId(user).value, id) && !CategoryAccepted(patch, cats) ==>
        r == UpdateError(MsgUpdateFailed) && txs == old(txs)
      ensures SignedInId(user).Some? && Owns(old(txs), SignedInId(user).value, id) && CategoryAccepted(patch, cats) ==>
        r == UpdateSuccess(ApplyPatch(old(txs)[id], patch, parseDate)) && txs == old(txs)[id := r.tx]
    {
      var userId := SignedInId(user);
      if userId.None? {
        return UpdateError(MsgUpdateFailed);
      }
      if !(id in txs && txs[id].userId == userId.value) {
        return UpdateError(MsgUpdateNotFound);
      }
      if patch.categoryId.Some? && patch.categoryId.value != 0 && !(1 <= patch.categoryId.value <= |cats|) {
        return UpdateError(MsgUpdateFailed);
      }
      var updated := ApplyPatch(txs[id], patch, parseDate);
      txs := txs[id := updated];
      r := UpdateSuccess(updated);
    }

    /** `transaction.delete`: a missing user throws; otherwise only the user's
        own row with that id is removed, and anything else answers 404 and
        removes nothing. */
    method Delete(user: Option<Profile>, id: int) returns (r: Outcome<DeleteReply>)
      requires Valid()
      modifies this
      ensures Valid()
      ensures cats == old(cats) && nextTxId == old(nextTxId)
      ensures SignedInId(user).None? ==> r == Thrown(AuthenticationError(MsgUnauthorized)) && txs == old(txs)
      ensures SignedInId(user).Some? && Owns(old(txs), SignedInId(user).value, id) ==>
        r == Done(DeleteSuccess(MsgDeleted)) && txs == old(txs) - {id}
      ensures SignedInId(user).Some? && !Owns(old(txs), SignedInId(user).value, id) ==>
        r == Done(DeleteNotFound(404, MsgDeleteNotFound)) && txs == old(txs)
    {
      var userId := SignedInId(user);
      if userId.None? {
        return Thrown(AuthenticationError(MsgUnauthorized));
      }
      if id in txs && txs[id].userId == userId.value {
        txs := txs - {id};
        r := Done(DeleteSuccess(MsgDeleted));
      } else {
        r := Done(DeleteNotFound(404, MsgDeleteNotFound));
      }
    }
  }

  // ---------------------------------------------------------------------------
  // Scenarios
  // ---------------------------------------------------------------------------

  /** Two transactions under the same new category name create one category. */
  method SameNewCategoryTwice(userId: int, name: string, parseDate: string -> Instant, now: Instant)
    returns (categories: nat, sameCategory: bool)
    requires userId != 0
    ensures categories == 1 && sameCategory
  {
    var store := new Store();
    var user := Profile(Some(userId), "u");
    var r1 := store.Create(user, CreateBody("a", 100.0, Income, name, None, None), parseDate, now);
    var r2 := store.Create(user, CreateBody("b", 50.0, Expense, name, None, None), parseDate, now);
    ConnectOrCreateTwice([], name, userId, Income, Expense);
    categories := |store.cats|;
    sameCategory := r1.Done? && r2.Done? && r1.value.tx.categoryId == r2.value.tx.categoryId;
  }

  /** A user cannot delete another user's row: the answer is 404 and the row stays. */
  method CrossUserDelete(owner: int, other: int, name: string, parseDate: string -> Instant, now: Instant)
    returns (status: int, stillThere: bool)
    requires owner != 0 && other != 0 && owner != other
    ensures status == 404 && stillThere
  {
    var store := new Store();
    var created := store.Create(Profile(Some(owner), "a"), CreateBody("t", 10.0, Expense, name, None, None), parseDate, now);
    var id := created.value.tx.id;
    var deleted := store.Delete(Some(Profile(Some(other), "b")), id);
    status := if deleted.Done? && deleted.value.DeleteNotFound? then deleted.value.status else 200;
    stillThere := id in store.txs && store.txs[id] == created.value.tx;
  }
}
