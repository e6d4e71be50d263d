/** workers/lib/globalData.js: the store of manual pool rebates, keyed by timestamp. */
module RebateStore {
  import opened Wrappers

  /** A number field of a request: absent, not an integer, or an integer. */
  datatype MaybeInt = Absent | NotInteger | Int(n: int)

  /** None stands for a value that is not a finite number; an empty txid counts as none. */
  datatype Write = Write(ts: MaybeInt, remove: bool, amountBTC: Option<real>, txid: string, prevTs: MaybeInt,
                         sender: string, receiver: string, priceUSD: Option<real>)

  datatype Row = Row(ts: int, amountBTC: real, txid: Option<string>, sender: string, receiver: string,
                     priceUSD: Option<real>)

  type Store = map<int, Row>

  // ---------- reading the request ----------

  predicate PositiveInt(v: MaybeInt) {
    v.Int? && v.n > 0
  }

  function LowerChar(c: char): char {
    if 'A' <= c <= 'Z' then 'a' + (c - 'A') else c
  }

  function Lower(s: string): string {
    seq(|s|, i requires 0 <= i < |s| => LowerChar(s[i]))
  }

  predicate IsTxid(s: string) {
    |s| == 64 && forall i :: 0 <= i < |s| ==> '0' <= s[i] <= '9' || 'a' <= s[i] <= 'f'
  }

  function TxidOf(w: Write): Option<string> {
    if w.txid == "" then None else Some(Lower(w.txid))
  }

  predicate TxidTaken(db: Store, txid: string, prevTs: MaybeInt) {
    exists k :: k in db && db[k].txid == Some(txid) && prevTs != Int(db[k].ts)
  }

  predicate Stored(db: Store, ts: int) {
    exists k :: k in db && db[k].ts == ts
  }

  /** The code's checks in its order; None lets the write through. */
  function Refusal(db: Store, w: Write): Option<string> {
    if !PositiveInt(w.ts) then Some("ERR_INVALID_TS")
    else if w.remove then None
    else if w.amountBTC.None? || w.amountBTC.value <= 0.0 then Some("ERR_INVALID_AMOUNT")
    else if TxidOf(w).Some? && !IsTxid(TxidOf(w).value) then Some("ERR_INVALID_TXID")
    else if w.prevTs != Absent && !PositiveInt(w.prevTs) then Some("ERR_INVALID_TS")
    else if TxidOf(w).Some? && TxidTaken(db, TxidOf(w).value, w.prevTs) then Some("ERR_DUPLICATE_TXID")
    else if w.prevTs != Absent && !Stored(db, w.prevTs.n) then Some("ERR_REBATE_NOT_FOUND")
    else None
  }

  // ---------- the store ----------

  ghost function Above(db: Store, ts: int): set<int> {
    set k | k in db && k >= ts
  }

  class PoolRebates {
    var db: Store

    constructor ()
      ensures db == map[]
    {
      db := map[];
    }

    /** The first key from `from` on that is not taken. */
    method Probe(from: int) returns (ts: int)
      ensures from <= ts && ts !in db && forall k :: from <= k < ts ==> k in db
    {
      ts := from;
      while ts in db
        invariant from <= ts && forall k :: from <= k < ts ==> k in db
        decreases |Above(db, ts)|
      {
        assert Above(db, ts) == Above(db, ts + 1) + {ts};
        ts := ts + 1;
      }
    }

    method SetPoolRebatesData(data: Write) returns (r: Result<bool, string>)
      requires Sound(db)
      modifies this
      ensures Refusal(old(db), data).Some? ==> r == Err(Refusal(old(db), data).value) && db == old(db)
      ensures Refusal(old(db), data).None? ==> r == Ok(true)
      ensures Refusal(old(db), data).None? && data.remove ==> db == old(db) - {data.ts.n}
      ensures Refusal(old(db), data).None? && !data.remove ==> exists ts :: Wrote(old(db), data, db, ts)
      ensures Sound(db)
    {
      ghost var before := db;
      var refusal := Refusal(db, data);
      if refusal.Some? { return Err(refusal.value); }
      if data.remove {
        db := db - {data.ts.n};
        return Ok(true);
      }
      var prevRow: Option<Row> := None;
      if data.prevTs != Absent {
        assert data.prevTs.n in db;
        prevRow := Some(db[data.prevTs.n]);
        db := db - {data.prevTs.n};
      }
      var priceUSD := data.priceUSD;
      if priceUSD.None? && prevRow.Some? && prevRow.value.ts == data.ts.n { priceUSD := prevRow.value.priceUSD; }
      var ts := Probe(data.ts.n);
      db := db[ts := Row(ts, data.amountBTC.value, TxidOf(data), data.sender, data.receiver, priceUSD)];
      assert Wrote(before, data, db, ts);
      WriteKeepsSound(before, data, db, ts);
      return Ok(true);
    }
  }

  // ---------- what a write does ----------

  /** The store without the row being edited. */
  function Remaining(db: Store, w: Write): Store {
    if w.prevTs.Int? then db - {w.prevTs.n} else db
  }

  /** The price stored: the one given, or the edited row's if its moment did not move. */
  function PriceOf(db: Store, w: Write): Option<real> {
    if w.priceUSD.Some? then w.priceUSD
    else if w.prevTs.Int? && w.prevTs == w.ts && w.prevTs.n in db then db[w.prevTs.n].priceUSD
    else None
  }

  /** `after` is `before`, less the row edited, plus the new row at the least free key from the
      requested one on. */
  ghost predicate Wrote(before: Store, w: Write, after: Store, ts: int)
    requires w.ts.Int? && w.amountBTC.Some?
  {
    && w.ts.n <= ts && ts !in Remaining(before, w) && (forall k :: w.ts.n <= k < ts ==> k in Remaining(before, w))
    && var row := Row(ts, w.amountBTC.value, TxidOf(w), w.sender, w.receiver, PriceOf(before, w));
       after == Remaining(before, w)[ts := row]
  }

  /** Every row sits under its own ts, and no two rows share a txid. */
  ghost predicate Sound(db: Store) {
    && (forall k :: k in db ==> db[k].ts == k)
    && (forall j, k :: j in db && k in db && db[j].txid.Some? && db[j].txid == db[k].txid ==> j == k)
  }

  lemma WriteKeepsSound(before: Store, w: Write, after: Store, ts: int)
    requires Sound(before) && Refusal(before, w).None? && !w.remove && Wrote(before, w, after, ts)
    ensures Sound(after)
  {
    forall k | k in Remaining(before, w) && TxidOf(w).Some?
      ensures before[k].txid != TxidOf(w)
    {
      assert before[k].txid == TxidOf(w) ==> TxidTaken(before, TxidOf(w).value, w.prevTs);
    }
  }

  /** A digit or a letter from a to f, in either case. */
  predicate IsHex(c: char) {
    '0' <= c <= '9' || 'a' <= c <= 'f' || 'A' <= c <= 'F'
  }

  /** `t` is the transaction id given: none for an empty text, else the text in lower case. */
  ghost predicate IsTxidOf(given: string, t: Option<string>) {
    if given == "" then t.None?
    else
      && t.Some? && |t.value| == |given|
      && forall i :: 0 <= i < |given| ==>
           t.value[i] == if 'A' <= given[i] <= 'Z' then (given[i] as int + 32) as char else given[i]
  }

  ghost predicate IsHexText(s: string) {
    |s| == 64 && forall i :: 0 <= i < |s| ==> IsHex(s[i])
  }

  /** Some other row has the transaction id. */
  ghost predicate HeldElsewhere(db: Store, w: Write, t: Option<string>) {
    t.Some? && exists k :: k in db && db[k].txid == t && (w.prevTs.Int? ==> db[k].ts != w.prevTs.n)
  }

  /** A write goes through exactly if its moment and its amount are positive, its transaction id, if given,
      is 64 hexadecimal digits that no other row has, and the row to be edited, if any is named, exists. */
  lemma AcceptedExactly(db: Store, w: Write, t: Option<string>)
    requires !w.remove && IsTxidOf(w.txid, t)
    ensures Refusal(db, w).None? <==>
            && w.ts.Int? && w.ts.n > 0 && w.amountBTC.Some? && w.amountBTC.value > 0.0
            && (w.txid != "" ==> IsHexText(w.txid)) && !HeldElsewhere(db, w, t)
            && (w.prevTs != Absent ==> w.prevTs.Int? && w.prevTs.n > 0 && exists k :: k in db && db[k].ts == w.prevTs.n)
  {
    LowerIsTxid(w, t);
    if w.txid != "" { HexLowered(w.txid); }
  }

  lemma LowerIsTxid(w: Write, t: Option<string>)
    requires IsTxidOf(w.txid, t)
    ensures t == TxidOf(w)
  {
    if w.txid != "" {
      forall i | 0 <= i < |w.txid| ensures t.value[i] == Lower(w.txid)[i] {
      }
      assert t.value == Lower(w.txid);
    }
  }

  lemma HexLowered(s: string)
    ensures IsTxid(Lower(s)) <==> IsHexText(s)
  {
    forall i | 0 <= i < |s|
      ensures '0' <= Lower(s)[i] <= '9' || 'a' <= Lower(s)[i] <= 'f' <==> IsHex(s[i])
    {
    }
  }

  /** The row written carries what was given, under the key found for it. */
  lemma WrittenRowTells(before: Store, w: Write, after: Store, ts: int)
    requires Refusal(before, w).None? && !w.remove && Wrote(before, w, after, ts)
    ensures ts in after && after[ts].ts == ts && Some(after[ts].amountBTC) == w.amountBTC
    ensures after[ts].sender == w.sender && after[ts].receiver == w.receiver && IsTxidOf(w.txid, after[ts].txid)
    ensures w.priceUSD.Some? ==> after[ts].priceUSD == w.priceUSD
  {
  }

  /** An add overwrites nothing: one row more, all others as they were. */
  lemma AddKeepsRows(before: Store, w: Write, after: Store, ts: int)
    requires Refusal(before, w).None? && !w.remove && w.prevTs == Absent && Wrote(before, w, after, ts)
    ensures ts !in before && |after| == |before| + 1
    ensures forall k :: k in before ==> k in after && after[k] == before[k]
  {
    assert after.Keys == before.Keys + {ts};
  }

  /** An edit keeps the number of rows and every other row; it carries the old price only when no new
      one is given and the moment did not move. */
  lemma EditKeepsCount(before: Store, w: Write, after: Store, ts: int)
    requires Sound(before) && Refusal(before, w).None? && !w.remove && w.prevTs != Absent && Wrote(before, w, after, ts)
    ensures w.prevTs.n in before && |after| == |before|
    ensures forall k :: k in before && k != w.prevTs.n ==> k in after && after[k] == before[k]
    ensures after[ts].priceUSD == if w.priceUSD.Some? then w.priceUSD
                                  else if w.ts == w.prevTs then before[w.prevTs.n].priceUSD else None
    ensures w.ts == w.prevTs ==> ts == w.ts.n
  {
    assert w.prevTs.n in before;
    assert Remaining(before, w).Keys == before.Keys - {w.prevTs.n};
    assert after.Keys == Remaining(before, w).Keys + {ts};
  }

  // ---------- runs ----------

  /** One request: refused, removed or written. */
  ghost predicate Step(before: Store, w: Write, after: Store) {
    match Refusal(before, w)
    case Some(_) => after == before
    case None => if w.remove then after == before - {w.ts.n} else exists ts :: Wrote(before, w, after, ts)
  }

  ghost predicate IsRun(stores: seq<Store>, writes: seq<Write>) {
    |stores| == |writes| + 1 && stores[0] == map[] && forall i :: 0 <= i < |writes| ==>
      Step(stores[i], writes[i], stores[i + 1])
  }

  /** Over any run of adds, edits and removals, every store on the way is sound. */
  lemma {:induction false} RunsAreSound(stores: seq<Store>, writes: seq<Write>, i: nat)
    requires IsRun(stores, writes) && i < |stores|
    ensures Sound(stores[i])
  {
    if i > 0 {
      RunsAreSound(stores, writes, i - 1);
      var before, w, after := stores[i - 1], writes[i - 1], stores[i];
      assert Step(before, w, after);
      if Refusal(before, w).None? && !w.remove {
        var ts :| Wrote(before, w, after, ts);
        WriteKeepsSound(before, w, after, ts);
      }
    }
  }

  // ---------- combinePoolRebates ----------

  ghost predicate TxidIn(rows: seq<Row>, txid: string) {
    exists i :: 0 <= i < |rows| && rows[i].txid == Some(txid)
  }

  /** No txid occurs twice. */
  ghost predicate TxidsOnce(rows: seq<Row>) {
    forall i, j :: 0 <= i < j < |rows| && rows[i].txid.Some? ==> rows[i].txid != rows[j].txid
  }

  lemma AppendTxid(rows: seq<Row>, row: Row)
    ensures forall t :: TxidIn(rows + [row], t) <==> TxidIn(rows, t) || row.txid == Some(t)
    ensures TxidsOnce(rows) && row.txid.Some? && !TxidIn(rows, row.txid.value) ==> TxidsOnce(rows + [row])
  {
    forall t ensures TxidIn(rows + [row], t) <==> TxidIn(rows, t) || row.txid == Some(t) {
      if i :| 0 <= i < |rows| && rows[i].txid == Some(t) { assert (rows + [row])[i].txid == Some(t); }
      if row.txid == Some(t) { assert (rows + [row])[|rows|].txid == Some(t); }
    }
  }

  /** All manual rows come first and unchanged; then the automatic rows whose txid is not there yet. */
  method CombinePoolRebates(manual: seq<Row>, auto: seq<Row>) returns (combined: seq<Row>)
    ensures manual <= combined
    ensures TxidsOnce(manual) ==> TxidsOnce(combined)
    ensures forall t :: TxidIn(combined, t) <==> TxidIn(manual, t) || TxidIn(auto, t)
    ensures forall k :: |manual| <= k < |combined| ==>
            combined[k] in auto && combined[k].txid.Some? && !TxidIn(manual, combined[k].txid.value)
  {
    var manualTxids := set row | row in manual && row.txid.Some? :: row.txid.value;
    var seenAuto: set<string> := {};
    combined := manual;
    for i := 0 to |auto|
      invariant manual <= combined
      invariant TxidsOnce(manual) ==> TxidsOnce(combined)
      invariant forall t :: t in manualTxids <==> TxidIn(manual, t)
      invariant forall t :: TxidIn(combined, t) <==> t in manualTxids || t in seenAuto
      invariant forall t :: t in seenAuto ==> TxidIn(auto, t)
      invariant forall t :: TxidIn(auto[..i], t) ==> t in manualTxids || t in seenAuto
      invariant forall k :: |manual| <= k < |combined| ==>
                combined[k] in auto && combined[k].txid.Some? && combined[k].txid.value !in manualTxids
    {
      var row := auto[i];
      AppendTxid(auto[..i], row);
      assert auto[..i + 1] == auto[..i] + [row];
      if row.txid.None? || row.txid.value in manualTxids || row.txid.value in seenAuto { continue; }
      AppendTxid(combined, row);
      seenAuto := seenAuto + {row.txid.value};
      combined := combined + [row];
    }
    assert auto[..|auto|] == auto;
  }

  /** The manual rows of a sound store, in key order. */
  ghost predicate RowsOf(db: Store, rows: seq<Row>) {
    && (forall r :: r in rows ==> r.ts in db && db[r.ts] == r)
    && (forall i, j :: 0 <= i < j < |rows| ==> rows[i].ts < rows[j].ts)
  }

  /** What the store lists never repeats a txid, so neither does the combination. */
  lemma ListedTxidsOnce(db: Store, rows: seq<Row>)
    requires Sound(db) && RowsOf(db, rows)
    ensures TxidsOnce(rows)
  {
    forall i, j | 0 <= i < j < |rows| && rows[i].txid.Some? ensures rows[i].txid != rows[j].txid {
      assert rows[i] in rows && rows[j] in rows;
    }
  }
}
