/**
  AddRoots: the per-root partition of a request into completed, in-flight and
  new roots, the clearing of dead transactions, and the rows that record a sent
  transaction. CIDs are abstract, in the form the tables store them.
 */
module AddRoots {
  import opened Common
  import opened Sets
  import opened RootLayout

  type TxHash(==, !new)

  datatype Status = Pending | Confirmed(success: Option<bool>) | Failed

  predicate Dead(st: Status) {
    st.Failed? || st == Confirmed(Some(false))
  }

  /** pdp_data_set_piece_adds, by its primary key. */
  datatype AddKey = AddKey(tx: TxHash, index: nat, offset: nat)
  datatype AddRow = AddRow(dataSet: int, root: Root, sub: Sub, size: nat, ref: int)
  /** pdp_data_set_pieces, as far as the partition reads it. */
  datatype PieceRow = PieceRow(dataSet: int, root: Root, tx: TxHash)

  datatype Tables = Tables(
    adds: map<AddKey, AddRow>,
    waits: map<TxHash, Status>, // message_waits_eth
    pieces: set<PieceRow>)

  // ---------------------------------------------------------- what is what

  predicate Completed(t: Tables, ds: int, r: Root) {
    exists p :: p in t.pieces && p.dataSet == ds && p.root == r
  }

  /** The row of key `k` stages root `r` of data set `ds` under a transaction the node waits on. */
  predicate Stages(t: Tables, k: AddKey, ds: int, r: Root) {
    k in t.adds && t.adds[k].dataSet == ds && t.adds[k].root == r && k.tx in t.waits
  }

  /** `r` is staged under `tx`, which is live. */
  predicate StagedUnder(t: Tables, ds: int, r: Root, tx: TxHash) {
    exists k :: k in t.adds && k.tx == tx && Stages(t, k, ds, r) && !Dead(t.waits[tx])
  }

  predicate InFlight(t: Tables, ds: int, r: Root) {
    exists k :: k in t.adds && Stages(t, k, ds, r) && !Dead(t.waits[k.tx])
  }

  predicate IsNew(t: Tables, ds: int, r: Root) {
    !Completed(t, ds, r) && !InFlight(t, ds, r)
  }

  predicate Requested(request: seq<RootAdd>, r: Root) {
    exists i :: 0 <= i < |request| && request[i].root == r
  }

  /** The dead transactions that staged some requested root. */
  function DeadTxs(t: Tables, ds: int, request: seq<RootAdd>): set<TxHash> {
    set k | k in t.adds && Requested(request, t.adds[k].root) && Stages(t, k, ds, t.adds[k].root)
            && Dead(t.waits[k.tx])
          :: k.tx
  }

  function Cleared(t: Tables, ds: int, dead: set<TxHash>): Tables {
    t.(adds := map k | k in t.adds && !(t.adds[k].dataSet == ds && k.tx in dead) :: t.adds[k])
  }

  /** `tx` is waited on, dead, and staged some requested root. */
  ghost predicate DeadFor(t: Tables, ds: int, request: seq<RootAdd>, tx: TxHash) {
    && tx in t.waits && (t.waits[tx] == Failed || t.waits[tx] == Confirmed(Some(false)))
    && exists k :: k in t.adds && k.tx == tx && t.adds[k].dataSet == ds && Requested(request, t.adds[k].root)
  }

  /** The row of `k` is gone if its transaction is dead for the request, and else as it was. */
  ghost predicate RowCleared(t: Tables, t': Tables, ds: int, request: seq<RootAdd>, k: AddKey) {
    && (k in t'.adds <==> k in t.adds && !(t.adds[k].dataSet == ds && DeadFor(t, ds, request, k.tx)))
    && (k in t'.adds ==> t'.adds[k] == t.adds[k])
  }

  /** Every row of the transactions that are dead for the request is gone, and nothing else has changed. */
  ghost predicate Clears(t: Tables, t': Tables, ds: int, request: seq<RootAdd>) {
    t'.waits == t.waits && t'.pieces == t.pieces && forall k :: RowCleared(t, t', ds, request, k)
  }

  lemma {:induction false} ClearedClears(t: Tables, ds: int, request: seq<RootAdd>)
    ensures Clears(t, Cleared(t, ds, DeadTxs(t, ds, request)), ds, request)
  {
    var dead := DeadTxs(t, ds, request);
    forall tx ensures tx in dead <==> DeadFor(t, ds, request, tx) {
      if DeadFor(t, ds, request, tx) {
        var k :| k in t.adds && k.tx == tx && t.adds[k].dataSet == ds && Requested(request, t.adds[k].root);
        assert Stages(t, k, ds, t.adds[k].root);
      }
    }
    forall k ensures RowCleared(t, Cleared(t, ds, dead), ds, request, k) {
    }
  }

  // ---------------------------------------------------------- the partition

  /** A row of the staged-roots query. */
  datatype StagedRow = StagedRow(root: Root, tx: TxHash, status: Status)

  ghost predicate AnswersCompleted(t: Tables, ds: int, request: seq<RootAdd>, rows: seq<PieceRow>) {
    forall p :: p in rows <==> p in t.pieces && p.dataSet == ds && Requested(request, p.root)
  }

  /** The join selects `row`. */
  ghost predicate Joined(t: Tables, ds: int, row: StagedRow) {
    exists k: AddKey :: k.tx == row.tx && Stages(t, k, ds, row.root) && row.status == t.waits[k.tx]
  }

  ghost predicate AnswersStaged(t: Tables, ds: int, request: seq<RootAdd>, rows: seq<StagedRow>) {
    forall row :: row in rows <==> Requested(request, row.root) && Joined(t, ds, row)
  }

  method MapCompleted(rows: seq<PieceRow>) returns (completed: map<Root, TxHash>)
    ensures forall r :: r in completed <==> exists p :: p in rows && p.root == r
    ensures forall r :: r in completed ==> exists p :: p in rows && p.root == r && p.tx == completed[r]
  {
    completed := map[];
    for i := 0 to |rows|
      invariant forall r :: r in completed <==> exists k :: 0 <= k < i && rows[k].root == r
      invariant forall r :: r in completed ==> exists k :: 0 <= k < i && rows[k].root == r && rows[k].tx == completed[r]
    {
      completed := completed[rows[i].root := rows[i].tx];
    }
  }

  /** A root staged under several transactions is in flight as long as one of them is live. */
  method MapStaged(rows: seq<StagedRow>) returns (inflight: map<Root, TxHash>, dead: set<TxHash>)
    ensures forall r :: r in inflight <==> exists row :: row in rows && row.root == r && !Dead(row.status)
    ensures forall r :: r in inflight ==>
              exists row :: row in rows && row.root == r && row.tx == inflight[r] && !Dead(row.status)
    ensures forall tx :: tx in dead <==> exists row :: row in rows && row.tx == tx && Dead(row.status)
  {
    inflight, dead := map[], {};
    for i := 0 to |rows|
      invariant forall r :: r in inflight <==> exists k :: 0 <= k < i && rows[k].root == r && !Dead(rows[k].status)
      invariant forall r :: r in inflight ==>
        exists k :: 0 <= k < i && rows[k].root == r && rows[k].tx == inflight[r] && !Dead(rows[k].status)
      invariant forall tx :: tx in dead <==> exists k :: 0 <= k < i && rows[k].tx == tx && Dead(rows[k].status)
    {
      if Dead(rows[i].status) {
        dead := dead + {rows[i].tx};
      } else {
        inflight := inflight[rows[i].root := rows[i].tx];
      }
    }
  }

  /** `out` is `request` at the rising places `at`. */
  ghost predicate Picks(request: seq<RootAdd>, at: seq<nat>, out: seq<RootAdd>) {
    && |at| == |out|
    && (forall k :: 0 <= k < |at| ==> at[k] < |request| && out[k] == request[at[k]])
    && (forall k, l :: 0 <= k < l < |at| ==> at[k] < at[l])
  }

  /** Keeps, in order, exactly the roots in neither map. */
  method FilterNew(request: seq<RootAdd>, completed: map<Root, TxHash>, inflight: map<Root, TxHash>)
    returns (out: seq<RootAdd>, ghost at: seq<nat>)
    ensures Picks(request, at, out)
    ensures forall i: nat :: i in at <==> i < |request| && request[i].root !in completed && request[i].root !in inflight
    ensures forall r :: r in out <==> r in request && r.root !in completed && r.root !in inflight
  {
    out, at := [], [];
    for n := 0 to |request|
      invariant Picks(request, at, out)
      invariant forall i: nat :: i in at <==> i < n && request[i].root !in completed && request[i].root !in inflight
    {
      var r := request[n].root;
      if r in completed {
        continue;
      }
      if r in inflight {
        continue;
      }
      forall k | 0 <= k < |at| ensures at[k] < n {
        assert at[k] in at;
      }
      out, at := out + [request[n]], at + [n];
    }
    forall r | r in request && r.root !in completed && r.root !in inflight ensures r in out {
      var i :| 0 <= i < |request| && request[i] == r;
      assert i in at;
    }
    forall k | 0 <= k < |out| ensures out[k].root !in completed && out[k].root !in inflight {
      assert at[k] in at;
    }
  }

  lemma {:induction false} PicksKeepsNoRepeat(request: seq<RootAdd>, at: seq<nat>, out: seq<RootAdd>)
    requires Picks(request, at, out) && NoRepeat(request)
    ensures NoRepeat(out)
  {
  }

  /** What the staged rows say of a root is what the tables say. */
  lemma {:induction false} StagedRowsTell(t: Tables, ds: int, request: seq<RootAdd>, rows: seq<StagedRow>, r: Root)
    requires AnswersStaged(t, ds, request, rows)
    ensures (exists row :: row in rows && row.root == r && !Dead(row.status)) <==>
              Requested(request, r) && InFlight(t, ds, r)
    ensures forall row :: row in rows && row.root == r && !Dead(row.status) ==> StagedUnder(t, ds, r, row.tx)
  {
    if Requested(request, r) && InFlight(t, ds, r) {
      var k :| k in t.adds && Stages(t, k, ds, r) && !Dead(t.waits[k.tx]);
      assert Joined(t, ds, StagedRow(r, k.tx, t.waits[k.tx]));
      assert StagedRow(r, k.tx, t.waits[k.tx]) in rows;
    }
    forall row | row in rows && row.root == r && !Dead(row.status)
      ensures Requested(request, r) && InFlight(t, ds, r) && StagedUnder(t, ds, r, row.tx)
    {
      assert Joined(t, ds, row);
      var k: AddKey :| k.tx == row.tx && Stages(t, k, ds, row.root) && row.status == t.waits[k.tx];
      assert k in t.adds;
    }
  }

  lemma {:induction false} DeadRowsTell(t: Tables, ds: int, request: seq<RootAdd>, rows: seq<StagedRow>, tx: TxHash)
    requires AnswersStaged(t, ds, request, rows)
    ensures (exists row :: row in rows && row.tx == tx && Dead(row.status)) <==> tx in DeadTxs(t, ds, request)
  {
    if tx in DeadTxs(t, ds, request) {
      var k :| k in t.adds && Requested(request, t.adds[k].root) && Stages(t, k, ds, t.adds[k].root)
               && Dead(t.waits[k.tx]) && k.tx == tx;
      var row := StagedRow(t.adds[k].root, tx, t.waits[tx]);
      assert Joined(t, ds, row);
      assert row in rows;
    }
    if row :| row in rows && row.tx == tx && Dead(row.status) {
      assert Joined(t, ds, row);
      var k: AddKey :| k.tx == row.tx && Stages(t, k, ds, row.root) && row.status == t.waits[k.tx];
      assert t.adds[k].root == row.root;
    }
  }

  // -------------------------------------------------------------- recording

  /** A row of the sub-piece query. */
  datatype ParkedRow = ParkedRow(sub: Sub, size: nat, ref: int)

  /** The key and row recorded for place `k` of root `i`. */
  ghost function KeyAt(infos: Infos, tx: TxHash, request: seq<RootAdd>, i: nat, k: nat): AddKey
    requires i < |request| && k < |request[i].subs|
  {
    AddKey(tx, i, Sum(Sizes(infos, request[i].subs), k))
  }

  ghost predicate RowAt(infos: Infos, ds: int, request: seq<RootAdd>, i: nat, k: nat, row: AddRow)
    requires i < |request| && k < |request[i].subs|
  {
    var sub := request[i].subs[k];
    sub in infos && row == AddRow(ds, request[i].root, sub, infos[sub].size, infos[sub].ref)
  }

  /** `adds` is `base` and the rows of the places before place `m` of root `n`. */
  ghost predicate Adds(base: map<AddKey, AddRow>, adds: map<AddKey, AddRow>, infos: Infos,
                       ds: int, tx: TxHash, request: seq<RootAdd>, n: int, m: int)
  {
    && (forall key :: key in base ==> key in adds && adds[key] == base[key])
    && (forall i, k :: Before(request, i, k, n, m) ==>
          KeyAt(infos, tx, request, i, k) in adds
            && RowAt(infos, ds, request, i, k, adds[KeyAt(infos, tx, request, i, k)]))
    && (forall key :: key in adds ==> key in base || IsKey(infos, tx, request, n, m, key))
  }

  ghost predicate IsKey(infos: Infos, tx: TxHash, request: seq<RootAdd>, n: int, m: int, key: AddKey) {
    exists i, k :: Before(request, i, k, n, m) && key == KeyAt(infos, tx, request, i, k)
  }

  ghost predicate Positive(infos: Infos) {
    forall s :: s in infos ==> infos[s].size > 0
  }

  lemma {:induction false} OffsetsRise(infos: Infos, subs: seq<Sub>, j: nat, k: nat)
    requires Positive(infos) && Known(infos, subs) && j < k < |subs|
    ensures Sum(Sizes(infos, subs), j) < Sum(Sizes(infos, subs), k)
  {
    var sizes := Sizes(infos, subs);
    assert subs[j] in subs;
    SumGrows(sizes, j + 1, k);
  }

  /** The next place's key is not taken. */
  lemma {:induction false} KeyIsFree(base: map<AddKey, AddRow>, adds: map<AddKey, AddRow>, infos: Infos,
                                     ds: int, tx: TxHash, request: seq<RootAdd>, n: nat, m: nat)
    requires Adds(base, adds, infos, ds, tx, request, n, m) && n < |request| && m < |request[n].subs|
    requires Positive(infos) && Known(infos, request[n].subs) && forall key :: key in base ==> key.tx != tx
    ensures KeyAt(infos, tx, request, n, m) !in adds
  {
    forall i, k | Before(request, i, k, n, m)
      ensures KeyAt(infos, tx, request, i, k) != KeyAt(infos, tx, request, n, m)
    {
      if i == n {
        OffsetsRise(infos, request[n].subs, k, m);
      }
    }
  }

  lemma {:induction false} AddNext(base: map<AddKey, AddRow>, adds: map<AddKey, AddRow>, infos: Infos,
                                   ds: int, tx: TxHash, request: seq<RootAdd>, n: nat, m: nat, row: AddRow)
    requires Adds(base, adds, infos, ds, tx, request, n, m) && n < |request| && m < |request[n].subs|
    requires KeyAt(infos, tx, request, n, m) !in adds && RowAt(infos, ds, request, n, m, row)
    ensures Adds(base, adds[KeyAt(infos, tx, request, n, m) := row], infos, ds, tx, request, n, m + 1)
  {
  }

  lemma {:induction false} AddsNextRoot(base: map<AddKey, AddRow>, adds: map<AddKey, AddRow>, infos: Infos,
                                        ds: int, tx: TxHash, request: seq<RootAdd>, n: nat)
    requires n < |request| && Adds(base, adds, infos, ds, tx, request, n, |request[n].subs|)
    ensures Adds(base, adds, infos, ds, tx, request, n + 1, 0)
  {
  }

  /** Every staged row's transaction is waited on. */
  ghost predicate KeysWaited(t: Tables) {
    forall k :: k in t.adds ==> k.tx in t.waits
  }

  // ------------------------------------------------------ a call's effect

  /** `key` is a new row of the call: it stages a new requested root under `tx`. */
  ghost predicate NewRow(t: Tables, t': Tables, ds: int, request: seq<RootAdd>, tx: TxHash, key: AddKey) {
    && key in t'.adds && key.tx == tx && t'.adds[key].dataSet == ds
    && Requested(request, t'.adds[key].root) && IsNew(t, ds, t'.adds[key].root)
  }

  ghost predicate StagesNow(t': Tables, ds: int, r: Root, tx: TxHash) {
    exists key :: key in t'.adds && key.tx == tx && t'.adds[key].dataSet == ds && t'.adds[key].root == r
  }

  /** The call records its new roots, all of them and nothing else, under the unused `tx`. */
  ghost predicate Submits(t: Tables, t': Tables, ds: int, request: seq<RootAdd>, tx: TxHash) {
    var base := Cleared(t, ds, DeadTxs(t, ds, request));
    && tx !in t.waits && t'.waits == t.waits[tx := Pending] && t'.pieces == t.pieces
    && (forall key :: key in base.adds ==> key in t'.adds && t'.adds[key] == base.adds[key])
    && (forall key :: key in t'.adds ==> key in base.adds || NewRow(t, t', ds, request, tx, key))
    && (forall i :: 0 <= i < |request| && IsNew(t, ds, request[i].root) ==> StagesNow(t', ds, request[i].root, tx))
  }

  lemma {:induction false} RecordedSubmits(t: Tables, t': Tables, ds: int, request: seq<RootAdd>, tx: TxHash,
                                           at: seq<nat>, out: seq<RootAdd>, infos: Infos)
    requires Picks(request, at, out) && WellFormed(request)
    requires forall i: nat :: i in at <==> i < |request| && IsNew(t, ds, request[i].root)
    requires tx !in t.waits && t'.waits == t.waits[tx := Pending] && t'.pieces == t.pieces
    requires Adds(Cleared(t, ds, DeadTxs(t, ds, request)).adds, t'.adds, infos, ds, tx, out, |out|, 0)
    ensures Submits(t, t', ds, request, tx)
  {
    var base := Cleared(t, ds, DeadTxs(t, ds, request)).adds;
    forall key | key in t'.adds && key !in base ensures NewRow(t, t', ds, request, tx, key) {
      assert IsKey(infos, tx, out, |out|, 0, key);
      var i, k :| Before(out, i, k, |out|, 0) && key == KeyAt(infos, tx, out, i, k);
      assert RowAt(infos, ds, out, i, k, t'.adds[key]);
      assert at[i] in at && request[at[i]] == out[i];
    }
    forall i | 0 <= i < |request| && IsNew(t, ds, request[i].root) ensures StagesNow(t', ds, request[i].root, tx) {
      assert i in at;
      var n :| 0 <= n < |at| && at[n] == i;
      assert out[n].subs != [] && Before(out, n, 0, |out|, 0);
      assert RowAt(infos, ds, out, n, 0, t'.adds[KeyAt(infos, tx, out, n, 0)]);
    }
  }

  lemma {:induction false} RecordedClears(t: Tables, t': Tables, ds: int, request: seq<RootAdd>, tx: TxHash)
    requires Submits(t, t', ds, request, tx)
    ensures forall k: AddKey :: k.tx != tx ==> RowCleared(t, t', ds, request, k)
  {
    var base := Cleared(t, ds, DeadTxs(t, ds, request));
    ClearedClears(t, ds, request);
    forall k: AddKey | k.tx != tx ensures RowCleared(t, t', ds, request, k) {
      assert RowCleared(t, base, ds, request, k);
      assert k in t'.adds ==> k in base.adds || NewRow(t, t', ds, request, tx, k);
    }
  }

  /** What a call meets outside the tables it writes. */
  datatype World = World(
    dataSet: Option<bool>, // the data set's row, and whether it is this service's
    done: seq<PieceRow>,
    staged: seq<StagedRow>,
    parked: seq<ParkedRow>,
    generate: (seq<Sub>, seq<nat>) -> Option<Root>, // GenerateUnsealedCID
    tooHigh: Root -> bool,
    sent: Option<TxHash>)

  datatype Outcome =
    | NoDataSet
    | NotAuthorized
    | BadRequest
    | AllStaged(txs: set<TxHash>) // waits for these
    | AllDone(tx: TxHash)
    | Rejected
    | NotSent
    | NotRecorded
    | Submitted(tx: TxHash)

  ghost predicate ParkedPositive(rows: seq<ParkedRow>) {
    forall r :: r in rows ==> r.size > 0
  }

  /** `infos` has a record for each sub-piece among the first `n` rows, from its last row. */
  ghost predicate FromRows(infos: Infos, rows: seq<ParkedRow>, n: nat)
    requires n <= |rows|
  {
    && (forall i :: 0 <= i < n ==> rows[i].sub in infos)
    && (forall s :: s in infos ==> FromRow(infos, rows, n, s))
  }

  ghost predicate FromRow(infos: Infos, rows: seq<ParkedRow>, n: nat, s: Sub)
    requires n <= |rows| && s in infos
  {
    exists i :: 0 <= i < n && rows[i] == ParkedRow(s, infos[s].size, infos[s].ref)
                && forall j :: i < j < n ==> rows[j].sub != s
  }

  /** One record per parked sub-piece; a later row of the same one replaces an earlier. */
  method LoadInfos(rows: seq<ParkedRow>) returns (infos: Infos)
    ensures FromRows(infos, rows, |rows|)
    ensures Separate(infos) && forall s :: s in infos ==> fresh(infos[s])
    ensures ParkedPositive(rows) ==> Positive(infos)
  {
    infos := map[];
    for i := 0 to |rows|
      invariant FromRows(infos, rows, i)
      invariant Separate(infos) && forall s :: s in infos ==> fresh(infos[s])
      invariant ParkedPositive(rows) ==> Positive(infos)
    {
      var info := new SubrootPiece(rows[i].size, rows[i].ref);
      assert rows[i] in rows;
      ghost var before := infos;
      infos := infos[rows[i].sub := info];
      forall s | s in infos ensures FromRow(infos, rows, i + 1, s) {
        if s != rows[i].sub {
          assert FromRow(before, rows, i, s);
        }
      }
    }
  }

  /** The roots are made of their parked sub-pieces, not too high, and fall in size. */
  ghost predicate Accepted(infos: Infos, request: seq<RootAdd>, w: World) {
    && (forall i :: 0 <= i < |request| ==> Makes(infos, request[i], w.generate))
    && AllDescending(infos, request) && forall i :: 0 <= i < |request| ==> !w.tooHigh(request[i].root)
  }

  ghost predicate AllDescending(infos: Infos, request: seq<RootAdd>) {
    forall i :: 0 <= i < |request| ==> Descending(Sizes(infos, request[i].subs))
  }

  /** The height and descending-size checks of every root. */
  method CheckRoots(infos: Infos, request: seq<RootAdd>, tooHigh: Root -> bool) returns (ok: bool)
    requires forall i :: 0 <= i < |request| ==> Known(infos, request[i].subs) && request[i].subs != []
    ensures ok <==> AllDescending(infos, request) && forall i :: 0 <= i < |request| ==> !tooHigh(request[i].root)
  {
    for n := 0 to |request|
      invariant forall i :: 0 <= i < n ==> !tooHigh(request[i].root) && Descending(Sizes(infos, request[i].subs))
    {
      if tooHigh(request[n].root) {
        return false;
      }
      var descending := CheckDescending(infos, request[n].subs);
      if !descending {
        return false;
      }
    }
    return true;
  }

  /** The rows of one root. */
  method RecordRoot(ghost base: map<AddKey, AddRow>, adds: map<AddKey, AddRow>, ds: int, tx: TxHash,
                    request: seq<RootAdd>, n: nat, infos: Infos) returns (r: map<AddKey, AddRow>)
    requires n < |request| && Positive(infos) && Known(infos, request[n].subs)
    requires LaidOut(infos, request, |request|, 0) && forall key :: key in base ==> key.tx != tx
    requires Adds(base, adds, infos, ds, tx, request, n, 0)
    ensures Adds(base, r, infos, ds, tx, request, n + 1, 0)
  {
    r := adds;
    var subs := request[n].subs;
    for m := 0 to |subs|
      invariant Adds(base, r, infos, ds, tx, request, n, m)
    {
      assert subs[m] in subs;
      var info := infos[subs[m]];
      assert Before(request, n, m, |request|, 0) && Placed(infos, subs, m);
      KeyIsFree(base, r, infos, ds, tx, request, n, m);
      var row := AddRow(ds, request[n].root, subs[m], info.size, info.ref);
      AddNext(base, r, infos, ds, tx, request, n, m, row);
      r := r[AddKey(tx, n, info.offset) := row];
    }
    AddsNextRoot(base, r, infos, ds, tx, request, n);
  }

  class Service {
    var t: Tables

    constructor (t: Tables)
      ensures this.t == t
    {
      this.t := t;
    }

    /**
      Every requested root is in exactly one part: completed, in flight, or
      kept to be submitted. The rows cleared are exactly those of the dead
      transactions of the requested roots.
     */
    method Partition(ds: int, request: seq<RootAdd>, done: seq<PieceRow>, staged: seq<StagedRow>)
      returns (out: seq<RootAdd>, completed: map<Root, TxHash>, inflight: map<Root, TxHash>, ghost at: seq<nat>)
      requires AnswersCompleted(t, ds, request, done) && AnswersStaged(t, ds, request, staged)
      modifies this
      ensures t == Cleared(old(t), ds, DeadTxs(old(t), ds, request)) && Clears(old(t), t, ds, request)
      ensures Picks(request, at, out)
      ensures forall i: nat :: i in at <==> i < |request| && IsNew(old(t), ds, request[i].root)
      ensures forall r :: r in completed <==> Requested(request, r) && Completed(old(t), ds, r)
      ensures forall r :: r in inflight <==> Requested(request, r) && InFlight(old(t), ds, r)
      ensures forall r :: r in inflight ==> StagedUnder(old(t), ds, r, inflight[r])
    {
      completed := MapCompleted(done);
      var dead;
      inflight, dead := MapStaged(staged);
      forall r ensures r in inflight <==> Requested(request, r) && InFlight(t, ds, r)
        ensures r in inflight ==> StagedUnder(t, ds, r, inflight[r])
      {
        StagedRowsTell(t, ds, request, staged, r);
      }
      assert dead == DeadTxs(t, ds, request) by {
        forall tx ensures tx in dead <==> tx in DeadTxs(t, ds, request) {
          DeadRowsTell(t, ds, request, staged, tx);
        }
      }
      ClearedClears(t, ds, request);
      t := Cleared(t, ds, dead);
      out, at := FilterNew(request, completed, inflight);
    }

    /** One row per sub-piece, at the offset its record holds; the primary key never clashes. */
    method RecordPieceAdds(ds: int, tx: TxHash, request: seq<RootAdd>, infos: Infos) returns (ok: bool)
      requires KeysWaited(t) && Positive(infos)
      requires forall i :: 0 <= i < |request| ==> Known(infos, request[i].subs)
      requires LaidOut(infos, request, |request|, 0)
      modifies this
      ensures ok <==> tx !in old(t).waits
      ensures !ok ==> t == old(t)
      ensures ok ==> t.waits == old(t).waits[tx := Pending] && t.pieces == old(t).pieces
      ensures ok ==> Adds(old(t).adds, t.adds, infos, ds, tx, request, |request|, 0)
    {
      if tx in t.waits {
        return false;
      }
      var adds := t.adds;
      for n := 0 to |request|
        invariant t == old(t) && Adds(t.adds, adds, infos, ds, tx, request, n, 0)
      {
        adds := RecordRoot(t.adds, adds, ds, tx, request, n, infos);
      }
      t := t.(adds := adds, waits := t.waits[tx := Pending]);
      return true;
    }

    /**
      A submission records exactly the new roots of the request under an unused
      transaction, at offsets that follow the descending sizes; any other
      outcome at most clears rows of dead transactions. A request with nothing
      new to submit is one whose roots are all staged or done.
     */
    method AddRoots(ds: int, request: seq<RootAdd>, w: World)
      returns (r: Outcome, ghost out: seq<RootAdd>, ghost infos: Infos)
      requires KeysWaited(t) && ParkedPositive(w.parked)
      requires AnswersCompleted(t, ds, request, w.done) && AnswersStaged(t, ds, request, w.staged)
      modifies this
      ensures r.Submitted? ==>
                && Submits(old(t), t, ds, request, r.tx)
                && Adds(Cleared(old(t), ds, DeadTxs(old(t), ds, request)).adds, t.adds, infos, ds, r.tx, out, |out|, 0)
                && AllDescending(infos, out) && NoRepeat(out)
                && forall k: AddKey :: k.tx != r.tx ==> RowCleared(old(t), t, ds, request, k)
      ensures !r.Submitted? ==> t == old(t) || Clears(old(t), t, ds, request)
      ensures r.NoDataSet? <==> w.dataSet == None
      ensures r.NotAuthorized? <==> w.dataSet == Some(false)
      ensures r.BadRequest? <==> w.dataSet == Some(true) && !WellFormed(request)
      ensures r.Rejected? ==> FromRows(infos, w.parked, |w.parked|) && !Accepted(infos, out, w)
      ensures r.Submitted? ==> FromRows(infos, w.parked, |w.parked|) && Accepted(infos, out, w) && w.sent == Some(r.tx)
      ensures r.NotSent? ==> w.sent == None
      ensures r.NotRecorded? ==> w.sent.Some? && w.sent.value in old(t).waits
      ensures r.AllStaged? || r.AllDone? ==> forall i :: 0 <= i < |request| ==> !IsNew(old(t), ds, request[i].root)
      ensures r.AllStaged? ==> forall i :: 0 <= i < |request| ==>
                || Completed(old(t), ds, request[i].root)
                || exists tx :: tx in r.txs && StagedUnder(old(t), ds, request[i].root, tx)
    {
      out, infos := [], map[];
      if w.dataSet == None {
        return NoDataSet, out, infos;
      }
      if !w.dataSet.value {
        return NotAuthorized, out, infos;
      }
      var ok := CheckRequest(request);
      if !ok {
        return BadRequest, out, infos;
      }
      var new_, completed, inflight, at := Partition(ds, request, w.done, w.staged);
      out := new_;
      if |new_| == 0 {
        forall i | 0 <= i < |request| ensures !IsNew(old(t), ds, request[i].root) {
          assert i !in at;
        }
        r := NothingNew(request, completed, inflight, old(t), ds);
        return;
      }
      PicksKeepsNoRepeat(request, at, new_);
      var subroots := LoadInfos(w.parked);
      infos := subroots;
      ok := LayOut(subroots, new_, w.generate);
      if !ok {
        return Rejected, out, infos;
      }
      forall i | 0 <= i < |new_| ensures Known(subroots, new_[i].subs) && new_[i].subs != [] {
        assert Makes(subroots, new_[i], w.generate);
      }
      ok := CheckRoots(subroots, new_, w.tooHigh);
      if !ok {
        return Rejected, out, infos;
      }
      if w.sent == None {
        return NotSent, out, infos;
      }
      ok := RecordPieceAdds(ds, w.sent.value, new_, subroots);
      if !ok {
        return NotRecorded, out, infos;
      }
      RecordedSubmits(old(t), t, ds, request, w.sent.value, at, new_, subroots);
      RecordedClears(old(t), t, ds, request, w.sent.value);
      return Submitted(w.sent.value), out, infos;
    }
  }

  /** With no new root the call waits on the transactions in flight, else reports a completed one. */
  method NothingNew(request: seq<RootAdd>, completed: map<Root, TxHash>, inflight: map<Root, TxHash>,
                    ghost t: Tables, ghost ds: int) returns (r: Outcome)
    requires request != [] && forall i :: 0 <= i < |request| ==> !IsNew(t, ds, request[i].root)
    requires forall x :: x in completed <==> Requested(request, x) && Completed(t, ds, x)
    requires forall x :: x in inflight <==> Requested(request, x) && InFlight(t, ds, x)
    requires forall x :: x in inflight ==> StagedUnder(t, ds, x, inflight[x])
    ensures r.AllStaged? || r.AllDone?
    ensures r.AllStaged? ==> forall i :: 0 <= i < |request| ==>
              Completed(t, ds, request[i].root) || exists tx :: tx in r.txs && StagedUnder(t, ds, request[i].root, tx)
  {
    forall i | 0 <= i < |request| ensures request[i].root in inflight || request[i].root in completed {
      assert !IsNew(t, ds, request[i].root);
    }
    var txs := set x | x in inflight :: inflight[x];
    forall x | x in inflight ensures inflight[x] in txs {
    }
    if txs != {} {
      return AllStaged(txs);
    }
    return AllDone(completed[request[0].root]);
  }
}
