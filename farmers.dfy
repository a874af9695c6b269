/**
 * The farmer directory (GET /api/farmers): one scan of the whole table,
 * folded into a table of trimmed farmer name to {total, verified} plus the
 * overall counters, then listed sorted by name.
 */
module Farmers {
  import opened Wrappers
  import opened JsText
  import opened Records
  import opened Filters
  import opened Store
  import opened Cursor
  import opened Seqs

  /** One entry of the directory. */
  datatype Entry = Entry(farmer: string, total: nat, verified: nat)

  /**
   * What the fold has built so far: the `Map` (its entries and the order in
   * which its keys were first set) and the overall counters.
   */
  datatype Dir = Dir(table: map<string, Entry>, order: seq<string>, total: nat, verified: nat)

  const Empty := Dir(map[], [], 0, 0)

  /** What one record contributes: its trimmed farmer name and whether it is verified. */
  datatype Seen = Seen(farmer: string, verified: bool)

  /**
   * `(d.farmerName ?? "").trim()` and `d.isGoldStandard === true`. A farmer
   * name that is neither absent, `null` nor a string has no `trim`: the
   * `TypeError` is `None`.
   */
  function Read(r: Record): Option<Seen> {
    var v := Coalesce(Attr(r, "farmerName"), Str(""));
    if v.Str? then Some(Seen(Trim(v.s), IsTrue(Attr(r, "isGoldStandard")))) else None
  }

  function Bit(b: bool): nat {
    if b then 1 else 0
  }

  /** `map.get(farmer) ?? { farmer, total: 0, verified: 0 }`. */
  function Current(d: Dir, f: string): Entry {
    if f in d.table then d.table[f] else Entry(f, 0, 0)
  }

  /** One more record in an entry, verified or not. */
  function Plus(e: Entry, v: bool): Entry {
    e.(total := e.total + 1, verified := e.verified + Bit(v))
  }

  /** Count one record of farmer `f` in the entry of `f` and in the overall counters. */
  function Bump(d: Dir, f: string, v: bool): Dir {
    Dir(d.table[f := Plus(Current(d, f), v)],
        if f in d.table then d.order else d.order + [f],
        d.total + 1, d.verified + Bit(v))
  }

  /**
   * How a record is read. The route's reader is `Read`; the fold and its
   * properties are stated for any reader.
   */
  type Reader = Record -> Option<Seen>

  /** The body of `for (const it of res.Items ?? [])`: a record with an empty name is skipped. */
  function Step(d: Dir, seen: Option<Seen>): Option<Dir> {
    match seen
    case None => None
    case Some(s) => if s.farmer == [] then Some(d) else Some(Bump(d, s.farmer, s.verified))
  }

  /** The state after a sequence of records, `None` once one of them throws. */
  function Fold(d: Dir, rows: seq<Record>, read: Reader): Option<Dir>
    decreases |rows|
  {
    if rows == [] then Some(d)
    else match Fold(d, rows[..|rows| - 1], read)
      case None => None
      case Some(d') => Step(d', read(rows[|rows| - 1]))
  }

  /** The state after every page from `q` until the key is falsy; `None` when a request fails or a record throws. */
  function Scan(fetch: Request -> Response, measure: Request -> nat, q: Request, d: Dir, read: Reader): Option<Dir>
    requires Progress(fetch, measure)
    decreases measure(q)
  {
    match fetch(q)
    case Failed => None
    case Ok(p) =>
      match Fold(d, p.items, read)
      case None => None
      case Some(d') => if !KeyTruthy(p.lastKey) then Some(d') else Scan(fetch, measure, From(q, p.lastKey), d', read)
  }

  // ----- sorting -----

  /** `a.farmer.localeCompare(b.farmer) <= 0` for every neighbouring pair. */
  predicate Sorted(compare: (string, string) -> int, es: seq<Entry>) {
    forall i :: 0 < i < |es| ==> compare(es[i - 1].farmer, es[i].farmer) <= 0
  }

  /** A comparator that never says both `a > b` and `b > a`. */
  ghost predicate Consistent(compare: (string, string) -> int) {
    forall a, b :: compare(a, b) > 0 ==> compare(b, a) <= 0
  }

  /** Put `e` before the first entry it does not come after. */
  function Insert(compare: (string, string) -> int, e: Entry, es: seq<Entry>): (r: seq<Entry>)
    ensures multiset(r) == multiset(es) + multiset{e}
    ensures |r| == |es| + 1
    ensures r != [] && (r[0] == e || (es != [] && r[0] == es[0]))
  {
    if es == [] || compare(e.farmer, es[0].farmer) <= 0 then [e] + es
    else
      assert es == [es[0]] + es[1..];
      [es[0]] + Insert(compare, e, es[1..])
  }

  /** `Array.prototype.sort` with the comparator: an insertion sort that keeps equal entries in order. */
  function Sort(compare: (string, string) -> int, es: seq<Entry>): (r: seq<Entry>)
    ensures multiset(r) == multiset(es)
    ensures |r| == |es|
  {
    if es == [] then []
    else
      assert es == [es[0]] + es[1..];
      Insert(compare, es[0], Sort(compare, es[1..]))
  }

  lemma {:induction false} InsertSorted(compare: (string, string) -> int, e: Entry, es: seq<Entry>)
    requires Consistent(compare) && Sorted(compare, es)
    ensures Sorted(compare, Insert(compare, e, es))
    decreases |es|
  {
    if es == [] || compare(e.farmer, es[0].farmer) <= 0 {
    } else {
      InsertSorted(compare, e, es[1..]);
      var rest := Insert(compare, e, es[1..]);
      assert compare(es[0].farmer, rest[0].farmer) <= 0;
    }
  }

  /** The list comes out sorted by farmer name. */
  lemma {:induction false} SortSorted(compare: (string, string) -> int, es: seq<Entry>)
    requires Consistent(compare)
    ensures Sorted(compare, Sort(compare, es))
    decreases |es|
  {
    if es != [] {
      SortSorted(compare, es[1..]);
      InsertSorted(compare, es[0], Sort(compare, es[1..]));
    }
  }

  // ----- the route -----

  datatype FarmersResponse = Directory(total: nat, verified: nat, farmers: seq<Entry>) | FarmersFailed

  /** `Array.from(map.values())`: the entries in the order their keys were first set. */
  function Values(order: seq<string>, table: map<string, Entry>): (es: seq<Entry>)
    ensures |es| <= |order|
  {
    if order == [] then []
    else (if order[0] in table then [table[order[0]]] else []) + Values(order[1..], table)
  }

  /** The scan the route makes: the whole table, no filter, no limit. */
  const Everything := Request(WholeTable, Filter([], map[], map[]), None, None)

  /** The whole answer of the route. */
  function FarmersSpec(fetch: Request -> Response, measure: Request -> nat, compare: (string, string) -> int): FarmersResponse
    requires Progress(fetch, measure)
  {
    match Scan(fetch, measure, Everything, Empty, Read)
    case None => FarmersFailed
    case Some(d) => Directory(d.total, d.verified, Sort(compare, Values(d.order, d.table)))
  }

  /** The body of the loop over a page: one record counted, `None` where it throws. */
  method CountRecord(d: Dir, it: Record) returns (r: Option<Dir>)
    ensures r == Step(d, Read(it))
  {
    var name := Coalesce(Attr(it, "farmerName"), Str(""));
    if !name.Str? {
      return None;
    }
    var farmer := Trim(name.s);
    var isV := IsTrue(Attr(it, "isGoldStandard"));
    assert Read(it) == Some(Seen(farmer, isV));
    if farmer == [] {
      return Some(d);
    }
    var d' := CountFarmer(d, farmer, isV);
    return Some(d');
  }

  /** The counters of farmer `farmer` and the overall ones, one record further. */
  method CountFarmer(d: Dir, farmer: string, isV: bool) returns (d': Dir)
    ensures d' == Bump(d, farmer, isV)
  {
    var table, order := d.table, d.order;
    var overallTotal, overallVerified := d.total + 1, d.verified;
    if isV {
      overallVerified := overallVerified + 1;
    }
    var cur := if farmer in table then table[farmer] else Entry(farmer, 0, 0);
    if farmer !in table {
      order := order + [farmer];
    }
    cur := cur.(total := cur.total + 1);
    if isV {
      cur := cur.(verified := cur.verified + 1);
    }
    table := table[farmer := cur];
    d' := Dir(table, order, overallTotal, overallVerified);
  }

  /** One page of records folded into the state. */
  method FoldPage(items: seq<Record>, d0: Dir) returns (d: Option<Dir>)
    ensures d == Fold(d0, items, Read)
  {
    var acc := d0;
    for i := 0 to |items|
      invariant Fold(d0, items[..i], Read) == Some(acc)
    {
      FoldNext(d0, items, i, Read);
      var next := CountRecord(acc, items[i]);
      if next.None? {
        FoldFailsOn(d0, items, i + 1, Read);
        return None;
      }
      acc := next.value;
    }
    assert items[..|items|] == items;
    return Some(acc);
  }

  /** `GET /api/farmers`. */
  method Get(fetch: Request -> Response, measure: Request -> nat, compare: (string, string) -> int) returns (resp: FarmersResponse)
    requires Progress(fetch, measure)
    ensures resp == FarmersSpec(fetch, measure, compare)
  {
    var d := Empty;
    var q := Everything;
    while true
      invariant Scan(fetch, measure, Everything, Empty, Read) == Scan(fetch, measure, q, d, Read)
      decreases measure(q)
    {
      var res := fetch(q);
      if res.Failed? {
        return FarmersFailed;
      }
      var d' := FoldPage(res.page.items, d);
      if d'.None? {
        return FarmersFailed;
      }
      d := d'.value;
      if !KeyTruthy(res.page.lastKey) {
        break;
      }
      q := From(q, res.page.lastKey);
    }
    var farmers := Sort(compare, Values(d.order, d.table));
    return Directory(d.total, d.verified, farmers);
  }

  // ----- properties -----

  /** The fold one record further. */
  lemma FoldNext(d: Dir, rows: seq<Record>, i: nat, read: Reader)
    requires i < |rows|
    ensures Fold(d, rows[..i + 1], read) ==
      match Fold(d, rows[..i], read)
      case None => None
      case Some(d') => Step(d', read(rows[i]))
  {
    assert rows[..i + 1][..i] == rows[..i];
  }

  /** Once a record throws, the fold stays failed. */
  lemma {:induction false} FoldFailsOn(d: Dir, rows: seq<Record>, i: nat, read: Reader)
    requires i <= |rows| && Fold(d, rows[..i], read) == None
    ensures Fold(d, rows, read) == None
    decreases |rows| - i
  {
    if i < |rows| {
      FoldNext(d, rows, i, read);
      FoldFailsOn(d, rows, i + 1, read);
    } else {
      assert rows[..i] == rows;
    }
  }

  /** Folding a concatenation is folding one part after the other. */
  lemma {:induction false} FoldAppend(d: Dir, a: seq<Record>, b: seq<Record>, read: Reader)
    ensures Fold(d, a + b, read) ==
      match Fold(d, a, read)
      case None => None
      case Some(d') => Fold(d', b, read)
    decreases |b|
  {
    if b == [] {
      assert a + b == a;
    } else {
      var b' := b[..|b| - 1];
      assert (a + b)[..|a + b| - 1] == a + b';
      assert (a + b)[|a + b| - 1] == b[|b| - 1];
      FoldAppend(d, a, b', read);
    }
  }

  /**
   * Scanning page by page is folding every record of every page in order:
   * the scan goes on until no page has a truthy key, and fails if a request
   * fails or a record throws.
   */
  lemma {:induction false} ScanWalk(fetch: Request -> Response, measure: Request -> nat, q: Request, d: Dir, read: Reader)
    requires Progress(fetch, measure)
    ensures Scan(fetch, measure, q, d, read) ==
      match Walk(fetch, measure, q)
      case None => None
      case Some(rows) => Fold(d, rows, read)
    decreases measure(q)
  {
    match fetch(q)
    case Failed =>
    case Ok(p) =>
      if KeyTruthy(p.lastKey) {
        var next := From(q, p.lastKey);
        if Walk(fetch, measure, next).Some? {
          FoldAppend(d, p.items, Walk(fetch, measure, next).value, read);
        }
        if Fold(d, p.items, read).Some? {
          ScanWalk(fetch, measure, next, Fold(d, p.items, read).value, read);
        }
      }
  }

  /** The fold fails exactly when some record cannot be read. */
  lemma {:induction false} FoldSucceeds(d: Dir, rows: seq<Record>, read: Reader)
    ensures Fold(d, rows, read).Some? <==> forall i :: 0 <= i < |rows| ==> read(rows[i]).Some?
    decreases |rows|
  {
    if rows != [] {
      var n := |rows| - 1;
      FoldSucceeds(d, rows[..n], read);
      AllReadPrefix(rows, n, read);
      var prev := Fold(d, rows[..n], read);
      if prev.Some? {
        StepSucceeds(prev.value, read(rows[n]));
      }
    }
  }

  /** Every record of `rows` can be read iff every one before the last and the last can. */
  lemma AllReadPrefix(rows: seq<Record>, n: nat, read: Reader)
    requires n + 1 == |rows|
    ensures (forall i :: 0 <= i < |rows| ==> read(rows[i]).Some?) <==>
      (forall i :: 0 <= i < n ==> read(rows[..n][i]).Some?) && read(rows[n]).Some?
  {
    assert forall i :: 0 <= i < n ==> rows[..n][i] == rows[i];
  }

  /** One step fails exactly when its record cannot be read. */
  lemma StepSucceeds(d: Dir, seen: Option<Seen>)
    ensures Step(d, seen).Some? <==> seen.Some?
  {
  }

  // ----- the invariant of the table -----

  /** One counter of an entry. */
  function Field(e: Entry, gold: bool): nat {
    if gold then e.verified else e.total
  }

  /** The sum of one counter over a list of entries. */
  function SumOf(es: seq<Entry>, gold: bool): nat {
    if es == [] then 0 else Field(es[0], gold) + SumOf(es[1..], gold)
  }

  predicate Distinct(xs: seq<string>) {
    forall i, j :: 0 <= i < j < |xs| ==> xs[i] != xs[j]
  }

  /**
   * What the fold keeps true: each key set once in `order`, each entry
   * named by its non-empty key with `verified <= total`, and the overall
   * counters the sums of the entries' counters.
   */
  predicate Good(d: Dir) {
    && Distinct(d.order)
    && (forall n :: n in d.table ==> n in d.order)
    && (forall i :: 0 <= i < |d.order| ==> d.order[i] in d.table)
    && EntriesNamed(d.table)
    && d.total == SumOf(Values(d.order, d.table), false)
    && d.verified == SumOf(Values(d.order, d.table), true)
  }

  lemma {:induction false} SumOfAppend(a: seq<Entry>, b: seq<Entry>, gold: bool)
    ensures SumOf(a + b, gold) == SumOf(a, gold) + SumOf(b, gold)
    decreases |a|
  {
    if a == [] {
      assert a + b == b;
    } else {
      assert (a + b)[1..] == a[1..] + b;
      SumOfAppend(a[1..], b, gold);
    }
  }

  lemma {:induction false} ValuesAppend(a: seq<string>, b: seq<string>, t: map<string, Entry>)
    ensures Values(a + b, t) == Values(a, t) + Values(b, t)
    decreases |a|
  {
    if a == [] {
      assert a + b == b;
    } else {
      assert (a + b)[1..] == a[1..] + b;
      ValuesAppend(a[1..], b, t);
    }
  }

  /** Setting a key that is not listed changes none of the listed values. */
  lemma {:induction false} ValuesAbsent(order: seq<string>, t: map<string, Entry>, f: string, e: Entry)
    requires f !in order
    ensures Values(order, t[f := e]) == Values(order, t)
    decreases |order|
  {
    if order != [] {
      ValuesAbsent(order[1..], t, f, e);
    }
  }

  /** Replacing the entry of a key listed once changes the sum by the difference. */
  lemma {:induction false} SumUpdate(order: seq<string>, t: map<string, Entry>, f: string, e: Entry, gold: bool)
    requires Distinct(order) && f in order && f in t
    ensures SumOf(Values(order, t[f := e]), gold) + Field(t[f], gold) == SumOf(Values(order, t), gold) + Field(e, gold)
    decreases |order|
  {
    var rest := order[1..];
    var t' := t[f := e];
    var head := if order[0] in t then [t[order[0]]] else [];
    var head' := if order[0] in t' then [t'[order[0]]] else [];
    assert Distinct(rest);
    SumOfAppend(head, Values(rest, t), gold);
    SumOfAppend(head', Values(rest, t'), gold);
    if order[0] == f {
      assert f !in rest;
      ValuesAbsent(rest, t, f, e);
    } else {
      assert f in rest;
      assert head' == head;
      SumUpdate(rest, t, f, e, gold);
    }
  }

  lemma EmptyGood()
    ensures Good(Empty)
  {
  }

  /** Counting one more record of a farmer already in the table keeps the invariant. */
  lemma BumpKnownGood(d: Dir, f: string, v: bool)
    requires Good(d) && f in d.table
    ensures Good(Bump(d, f, v))
  {
    var e := Plus(Current(d, f), v);
    SumUpdate(d.order, d.table, f, e, false);
    SumUpdate(d.order, d.table, f, e, true);
  }

  /** A new key listed last adds its entry at the end of the listed values. */
  lemma ValuesNew(d: Dir, f: string, e: Entry)
    requires f !in d.order
    ensures Values(d.order + [f], d.table[f := e]) == Values(d.order, d.table) + [e]
  {
    var t := d.table[f := e];
    ValuesAbsent(d.order, d.table, f, e);
    ValuesAppend(d.order, [f], t);
    assert Values([f], t) == [e];
  }

  /** Counting the first record of a new, non-empty farmer name keeps the invariant. */
  lemma BumpNewGood(d: Dir, f: string, v: bool)
    requires Good(d) && f != [] && f !in d.table
    ensures Good(Bump(d, f, v))
  {
    var e := Plus(Current(d, f), v);
    var d' := Bump(d, f, v);
    assert e == Entry(f, 1, Bit(v));
    assert f !in d.order;
    ValuesNew(d, f, e);
    SingleSum(e, false);
    SingleSum(e, true);
    SumOfAppend(Values(d.order, d.table), [e], false);
    SumOfAppend(Values(d.order, d.table), [e], true);
    DistinctSnoc(d.order, f);
    EntriesSet(d.table, f, e);
    assert forall n :: n in d'.table ==> n in d'.order;
    assert forall i :: 0 <= i < |d'.order| ==> d'.order[i] in d'.table;
  }

  /** Each entry named by its non-empty key, with `verified <= total`. */
  predicate EntriesNamed(t: map<string, Entry>) {
    forall n :: n in t ==> t[n].farmer == n && n != [] && t[n].verified <= t[n].total
  }

  lemma EntriesSet(t: map<string, Entry>, f: string, e: Entry)
    requires EntriesNamed(t) && e.farmer == f && f != [] && e.verified <= e.total
    ensures EntriesNamed(t[f := e])
  {
  }

  lemma SingleSum(e: Entry, gold: bool)
    ensures SumOf([e], gold) == Field(e, gold)
  {
    assert [e][1..] == [];
  }

  lemma DistinctSnoc(xs: seq<string>, f: string)
    requires Distinct(xs) && f !in xs
    ensures Distinct(xs + [f])
  {
    var ys := xs + [f];
    forall i, j | 0 <= i < j < |ys|
      ensures ys[i] != ys[j]
    {
      if j == |xs| {
        assert ys[i] == xs[i];
      } else {
        assert ys[i] == xs[i] && ys[j] == xs[j];
      }
    }
  }

  /** Counting one record of a non-empty name keeps the invariant. */
  lemma BumpGood(d: Dir, f: string, v: bool)
    requires Good(d) && f != []
    ensures Good(Bump(d, f, v))
  {
    if f in d.table {
      BumpKnownGood(d, f, v);
    } else {
      BumpNewGood(d, f, v);
    }
  }

  /** Every step of the fold keeps the invariant. */
  lemma {:induction false} FoldGood(d: Dir, rows: seq<Record>, read: Reader)
    requires Good(d)
    ensures Fold(d, rows, read).Some? ==> Good(Fold(d, rows, read).value)
    decreases |rows|
  {
    if rows != [] {
      FoldGood(d, rows[..|rows| - 1], read);
      var seen := read(rows[|rows| - 1]);
      if Fold(d, rows[..|rows| - 1], read).Some? && seen.Some? && seen.value.farmer != [] {
        BumpGood(Fold(d, rows[..|rows| - 1], read).value, seen.value.farmer, seen.value.verified);
      }
    }
  }

  // ----- what the counters count -----

  /** The records read as farmer `n`. */
  function NameTest(read: Reader, n: string): Record -> bool {
    r => read(r).Some? && read(r).value.farmer == n
  }

  /** The verified records read as farmer `n`. */
  function GoldTest(read: Reader, n: string): Record -> bool {
    r => read(r).Some? && read(r).value.farmer == n && read(r).value.verified
  }

  /** The records read with a non-empty farmer name. */
  function AnyTest(read: Reader): Record -> bool {
    r => read(r).Some? && read(r).value.farmer != []
  }

  /** The verified records read with a non-empty farmer name. */
  function AnyGoldTest(read: Reader): Record -> bool {
    r => read(r).Some? && read(r).value.farmer != [] && read(r).value.verified
  }

  /** What a successful fold from the empty state has counted. */
  ghost predicate Counts(d: Dir, rows: seq<Record>, read: Reader) {
    && (forall n :: n in d.table ==> n != [] && Seqs.Count(rows, NameTest(read, n)) > 0)
    && (forall n :: n != [] && Seqs.Count(rows, NameTest(read, n)) > 0 ==> n in d.table)
    && (forall n :: n in d.table ==> d.table[n].total == Seqs.Count(rows, NameTest(read, n)))
    && (forall n :: n in d.table ==> d.table[n].verified == Seqs.Count(rows, GoldTest(read, n)))
    && d.total == Seqs.Count(rows, AnyTest(read))
    && d.verified == Seqs.Count(rows, AnyGoldTest(read))
  }

  /** The fold one record further, on a prefix that folded. */
  lemma FoldLast(rows: seq<Record>, read: Reader)
    requires rows != [] && Fold(Empty, rows, read).Some?
    ensures Fold(Empty, rows[..|rows| - 1], read).Some?
    ensures Fold(Empty, rows, read) == Step(Fold(Empty, rows[..|rows| - 1], read).value, read(rows[|rows| - 1]))
  {
  }

  /** One record counted by every test, or by none. */
  lemma CountsLast(rows: seq<Record>, read: Reader, n: string)
    requires rows != []
    ensures Seqs.Count(rows, NameTest(read, n)) == Seqs.Count(rows[..|rows| - 1], NameTest(read, n)) + Bit(NameTest(read, n)(rows[|rows| - 1]))
    ensures Seqs.Count(rows, GoldTest(read, n)) == Seqs.Count(rows[..|rows| - 1], GoldTest(read, n)) + Bit(GoldTest(read, n)(rows[|rows| - 1]))
  {
    CountLast(rows, NameTest(read, n));
    CountLast(rows, GoldTest(read, n));
  }

  /** The counts one record further, for every name. */
  lemma CountsEveryLast(rows: seq<Record>, read: Reader)
    requires rows != []
    ensures forall n :: Seqs.Count(rows, NameTest(read, n)) == Seqs.Count(rows[..|rows| - 1], NameTest(read, n)) + Bit(NameTest(read, n)(rows[|rows| - 1]))
    ensures forall n :: Seqs.Count(rows, GoldTest(read, n)) == Seqs.Count(rows[..|rows| - 1], GoldTest(read, n)) + Bit(GoldTest(read, n)(rows[|rows| - 1]))
    ensures Seqs.Count(rows, AnyTest(read)) == Seqs.Count(rows[..|rows| - 1], AnyTest(read)) + Bit(AnyTest(read)(rows[|rows| - 1]))
    ensures Seqs.Count(rows, AnyGoldTest(read)) == Seqs.Count(rows[..|rows| - 1], AnyGoldTest(read)) + Bit(AnyGoldTest(read)(rows[|rows| - 1]))
  {
    forall n
      ensures Seqs.Count(rows, NameTest(read, n)) == Seqs.Count(rows[..|rows| - 1], NameTest(read, n)) + Bit(NameTest(read, n)(rows[|rows| - 1]))
      ensures Seqs.Count(rows, GoldTest(read, n)) == Seqs.Count(rows[..|rows| - 1], GoldTest(read, n)) + Bit(GoldTest(read, n)(rows[|rows| - 1]))
    {
      CountsLast(rows, read, n);
    }
    CountLast(rows, AnyTest(read));
    CountLast(rows, AnyGoldTest(read));
  }

  /** A last record with an empty name is counted by no test. */
  lemma CountsSkip(d: Dir, rows: seq<Record>, read: Reader)
    requires rows != [] && Counts(d, rows[..|rows| - 1], read)
    requires read(rows[|rows| - 1]).Some? && read(rows[|rows| - 1]).value.farmer == []
    ensures Counts(d, rows, read)
  {
    CountsEveryLast(rows, read);
  }

  /** The verified records of a farmer are among the records of that farmer. */
  lemma GoldWithinName(rows: seq<Record>, read: Reader, n: string)
    ensures Seqs.Count(rows, GoldTest(read, n)) <= Seqs.Count(rows, NameTest(read, n))
  {
    CountMono(rows, GoldTest(read, n), NameTest(read, n));
  }

  /** The entry of one name after a last record with a non-empty name. */
  lemma CountsBumpAt(d: Dir, rows: seq<Record>, read: Reader, n: string)
    requires rows != [] && Counts(d, rows[..|rows| - 1], read)
    requires read(rows[|rows| - 1]).Some? && read(rows[|rows| - 1]).value.farmer != []
    requires n in Bump(d, read(rows[|rows| - 1]).value.farmer, read(rows[|rows| - 1]).value.verified).table
    ensures var e := Bump(d, read(rows[|rows| - 1]).value.farmer, read(rows[|rows| - 1]).value.verified).table[n];
      && n != [] && Seqs.Count(rows, NameTest(read, n)) > 0
      && e.total == Seqs.Count(rows, NameTest(read, n))
      && e.verified == Seqs.Count(rows, GoldTest(read, n))
  {
    var last := rows[|rows| - 1];
    var before := rows[..|rows| - 1];
    var f := read(last).value.farmer;
    CountsLast(rows, read, n);
    if n == f {
      assert NameTest(read, n)(last);
      assert GoldTest(read, n)(last) == read(last).value.verified;
      if f !in d.table {
        GoldWithinName(before, read, f);
      }
    } else {
      assert !NameTest(read, n)(last) && !GoldTest(read, n)(last);
    }
  }

  /** A last record with a non-empty name is counted under that name and overall. */
  lemma CountsBump(d: Dir, rows: seq<Record>, read: Reader)
    requires rows != [] && Counts(d, rows[..|rows| - 1], read)
    requires read(rows[|rows| - 1]).Some? && read(rows[|rows| - 1]).value.farmer != []
    ensures Counts(Bump(d, read(rows[|rows| - 1]).value.farmer, read(rows[|rows| - 1]).value.verified), rows, read)
  {
    CountsBumpEntries(d, rows, read);
    CountsBumpCovers(d, rows, read);
    CountsBumpTotals(d, rows, read);
  }

  /** After a last record with a non-empty name, every entry counts the records of its name. */
  lemma CountsBumpEntries(d: Dir, rows: seq<Record>, read: Reader)
    requires rows != [] && Counts(d, rows[..|rows| - 1], read)
    requires read(rows[|rows| - 1]).Some? && read(rows[|rows| - 1]).value.farmer != []
    ensures var d' := Bump(d, read(rows[|rows| - 1]).value.farmer, read(rows[|rows| - 1]).value.verified);
      forall n :: n in d'.table ==>
        && n != [] && Seqs.Count(rows, NameTest(read, n)) > 0
        && d'.table[n].total == Seqs.Count(rows, NameTest(read, n))
        && d'.table[n].verified == Seqs.Count(rows, GoldTest(read, n))
  {
    var last := rows[|rows| - 1];
    var d' := Bump(d, read(last).value.farmer, read(last).value.verified);
    forall n | n in d'.table
      ensures n != [] && Seqs.Count(rows, NameTest(read, n)) > 0
      ensures d'.table[n].total == Seqs.Count(rows, NameTest(read, n))
      ensures d'.table[n].verified == Seqs.Count(rows, GoldTest(read, n))
    {
      CountsBumpAt(d, rows, read, n);
    }
  }

  /** After a last record with a non-empty name, every name counted has an entry. */
  lemma CountsBumpCovers(d: Dir, rows: seq<Record>, read: Reader)
    requires rows != [] && Counts(d, rows[..|rows| - 1], read)
    requires read(rows[|rows| - 1]).Some? && read(rows[|rows| - 1]).value.farmer != []
    ensures var d' := Bump(d, read(rows[|rows| - 1]).value.farmer, read(rows[|rows| - 1]).value.verified);
      forall n :: n != [] && Seqs.Count(rows, NameTest(read, n)) > 0 ==> n in d'.table
  {
    var last := rows[|rows| - 1];
    var f := read(last).value.farmer;
    forall n | n != [] && Seqs.Count(rows, NameTest(read, n)) > 0
      ensures n in d.table || n == f
    {
      CountsLast(rows, read, n);
      if n != f {
        assert !NameTest(read, n)(last);
      }
    }
  }

  /** After a last record with a non-empty name, the overall counters count it. */
  lemma CountsBumpTotals(d: Dir, rows: seq<Record>, read: Reader)
    requires rows != [] && Counts(d, rows[..|rows| - 1], read)
    requires read(rows[|rows| - 1]).Some? && read(rows[|rows| - 1]).value.farmer != []
    ensures var d' := Bump(d, read(rows[|rows| - 1]).value.farmer, read(rows[|rows| - 1]).value.verified);
      d'.total == Seqs.Count(rows, AnyTest(read)) && d'.verified == Seqs.Count(rows, AnyGoldTest(read))
  {
    CountLast(rows, AnyTest(read));
    CountLast(rows, AnyGoldTest(read));
  }

  /**
   * Folding records from the empty state gives one entry per non-empty
   * name read, counting the records of that name and the verified ones, and
   * overall counters counting every record with a non-empty name.
   */
  lemma {:induction false} FoldCounts(rows: seq<Record>, read: Reader)
    requires Fold(Empty, rows, read).Some?
    ensures Counts(Fold(Empty, rows, read).value, rows, read)
    decreases |rows|
  {
    if rows != [] {
      var before := rows[..|rows| - 1];
      FoldLast(rows, read);
      FoldCounts(before, read);
      var d := Fold(Empty, before, read).value;
      var s := read(rows[|rows| - 1]).value;
      if s.farmer != [] {
        CountsBump(d, rows, read);
      } else {
        CountsSkip(d, rows, read);
      }
    }
  }

  // ----- the listed entries -----

  /** No two entries share a farmer name. */
  predicate DistinctNames(es: seq<Entry>) {
    forall i, j :: 0 <= i < j < |es| ==> es[i].farmer != es[j].farmer
  }

  lemma {:induction false} InsertSum(compare: (string, string) -> int, e: Entry, es: seq<Entry>, gold: bool)
    ensures SumOf(Insert(compare, e, es), gold) == Field(e, gold) + SumOf(es, gold)
    decreases |es|
  {
    if es == [] || compare(e.farmer, es[0].farmer) <= 0 {
      assert ([e] + es)[1..] == es;
    } else {
      InsertSum(compare, e, es[1..], gold);
      assert ([es[0]] + Insert(compare, e, es[1..]))[1..] == Insert(compare, e, es[1..]);
    }
  }

  /** Sorting keeps both sums. */
  lemma {:induction false} SortSum(compare: (string, string) -> int, es: seq<Entry>, gold: bool)
    ensures SumOf(Sort(compare, es), gold) == SumOf(es, gold)
    decreases |es|
  {
    if es != [] {
      SortSum(compare, es[1..], gold);
      InsertSum(compare, es[0], Sort(compare, es[1..]), gold);
    }
  }

  /** An entry whose name is not listed can go in front. */
  lemma ConsDistinct(x: Entry, xs: seq<Entry>)
    requires DistinctNames(xs) && forall y :: y in xs ==> y.farmer != x.farmer
    ensures DistinctNames([x] + xs)
  {
    assert forall i :: 0 < i < |[x] + xs| ==> ([x] + xs)[i] == xs[i - 1];
  }

  lemma {:induction false} InsertDistinct(compare: (string, string) -> int, e: Entry, es: seq<Entry>)
    requires DistinctNames(es) && forall x :: x in es ==> x.farmer != e.farmer
    ensures DistinctNames(Insert(compare, e, es))
    decreases |es|
  {
    if es == [] || compare(e.farmer, es[0].farmer) <= 0 {
      ConsDistinct(e, es);
    } else {
      var tail := es[1..];
      assert DistinctNames(tail);
      InsertDistinct(compare, e, tail);
      var rest := Insert(compare, e, tail);
      forall y | y in rest ensures y.farmer != es[0].farmer {
        assert y in multiset(rest);
        if y != e {
          var k :| 0 <= k < |tail| && tail[k] == y;
          assert es[k + 1] == y;
        }
      }
      ConsDistinct(es[0], rest);
    }
  }

  /** Sorting keeps the names distinct. */
  lemma {:induction false} SortDistinct(compare: (string, string) -> int, es: seq<Entry>)
    requires DistinctNames(es)
    ensures DistinctNames(Sort(compare, es))
    decreases |es|
  {
    if es != [] {
      SortDistinct(compare, es[1..]);
      var rest := Sort(compare, es[1..]);
      forall x | x in rest ensures x.farmer != es[0].farmer {
        assert x in multiset(rest);
        assert x in es[1..];
      }
      InsertDistinct(compare, es[0], rest);
    }
  }

  /** The listed values are the entries of the listed keys. */
  lemma {:induction false} ValuesIn(order: seq<string>, table: map<string, Entry>, x: Entry)
    ensures x in Values(order, table) <==> exists i :: 0 <= i < |order| && order[i] in table && table[order[i]] == x
    decreases |order|
  {
    if order != [] {
      ValuesIn(order[1..], table, x);
      assert forall i :: 1 <= i < |order| ==> order[i] == order[1..][i - 1];
      if x in Values(order[1..], table) {
        var i :| 0 <= i < |order[1..]| && order[1..][i] in table && table[order[1..][i]] == x;
        assert order[i + 1] == order[1..][i];
      }
    }
  }

  /** Entries of distinct keys, each named by its key, have distinct names. */
  lemma {:induction false} ValuesDistinct(order: seq<string>, table: map<string, Entry>)
    requires Distinct(order) && forall n :: n in table ==> table[n].farmer == n
    ensures DistinctNames(Values(order, table))
    decreases |order|
  {
    if order != [] {
      ValuesDistinct(order[1..], table);
      var rest := Values(order[1..], table);
      if order[0] in table {
        forall x | x in rest ensures x.farmer != order[0] {
          ValuesIn(order[1..], table, x);
        }
        assert forall i :: 0 < i < |[table[order[0]]] + rest| ==> ([table[order[0]]] + rest)[i] == rest[i - 1];
      } else {
        assert Values(order, table) == rest;
      }
    }
  }

  /**
   * Under the invariant, the sorted list holds exactly the entries of the
   * table, one per name, summing to the overall counters.
   */
  lemma Listing(compare: (string, string) -> int, d: Dir)
    requires Good(d)
    ensures var es := Sort(compare, Values(d.order, d.table));
      && DistinctNames(es)
      && SumOf(es, false) == d.total && SumOf(es, true) == d.verified
      && (forall x :: x in es <==> x.farmer in d.table && d.table[x.farmer] == x)
  {
    var vs := Values(d.order, d.table);
    var es := Sort(compare, vs);
    ValuesDistinct(d.order, d.table);
    SortDistinct(compare, vs);
    SortSum(compare, vs, false);
    SortSum(compare, vs, true);
    forall x
      ensures x in es <==> x.farmer in d.table && d.table[x.farmer] == x
    {
      assert x in es <==> x in multiset(es);
      assert x in vs <==> x in multiset(vs);
      ValuesIn(d.order, d.table, x);
      if x.farmer in d.table && d.table[x.farmer] == x {
        var i :| 0 <= i < |d.order| && d.order[i] == x.farmer;
      }
    }
  }

  /**
   * A successful answer lists one entry per distinct name, each non-empty
   * with `verified <= total`, and the overall counters are the sums of the
   * listed ones.
   */
  lemma DirectoryTotals(fetch: Request -> Response, measure: Request -> nat, compare: (string, string) -> int)
    requires Progress(fetch, measure)
    ensures var r := FarmersSpec(fetch, measure, compare);
      r.Directory? ==>
        && DistinctNames(r.farmers)
        && r.total == SumOf(r.farmers, false) && r.verified == SumOf(r.farmers, true)
        && forall x :: x in r.farmers ==> x.farmer != [] && x.verified <= x.total
  {
    var d := Scan(fetch, measure, Everything, Empty, Read);
    if d.Some? {
      ScanWalk(fetch, measure, Everything, Empty, Read);
      EmptyGood();
      FoldGood(Empty, Walk(fetch, measure, Everything).value, Read);
      Listing(compare, d.value);
    }
  }

  /** With a comparator that never says both `a > b` and `b > a`, the list is sorted. */
  lemma DirectorySorted(fetch: Request -> Response, measure: Request -> nat, compare: (string, string) -> int)
    requires Progress(fetch, measure) && Consistent(compare)
    ensures var r := FarmersSpec(fetch, measure, compare);
      r.Directory? ==> Sorted(compare, r.farmers)
  {
    var d := Scan(fetch, measure, Everything, Empty, Read);
    if d.Some? {
      SortSorted(compare, Values(d.value.order, d.value.table));
    }
  }

  /**
   * The answer counts every record of every page of the scan: it fails
   * exactly when a request fails or a record has a farmer name that is not
   * a string; otherwise the overall counters count the records with a
   * non-empty trimmed name (and the verified ones), each listed entry counts
   * the records of its name, and every such name is listed.
   */
  lemma DirectoryCounts(fetch: Request -> Response, measure: Request -> nat, compare: (string, string) -> int)
    requires Progress(fetch, measure)
    ensures var r := FarmersSpec(fetch, measure, compare);
      var w := Walk(fetch, measure, Everything);
      && (r.Directory? <==> w.Some? && forall i :: 0 <= i < |w.value| ==> Read(w.value[i]).Some?)
      && (r.Directory? ==>
        && r.total == Seqs.Count(w.value, AnyTest(Read))
        && r.verified == Seqs.Count(w.value, AnyGoldTest(Read))
        && (forall x :: x in r.farmers ==>
              && x.farmer != []
              && x.total == Seqs.Count(w.value, NameTest(Read, x.farmer))
              && x.verified == Seqs.Count(w.value, GoldTest(Read, x.farmer)))
        && (forall n :: n != [] && Seqs.Count(w.value, NameTest(Read, n)) > 0 ==>
              exists x :: x in r.farmers && x.farmer == n))
  {
    var w := Walk(fetch, measure, Everything);
    ScanWalk(fetch, measure, Everything, Empty, Read);
    if w.Some? {
      FoldSucceeds(Empty, w.value, Read);
      var d := Fold(Empty, w.value, Read);
      if d.Some? {
        FoldCounts(w.value, Read);
        EmptyGood();
        FoldGood(Empty, w.value, Read);
        Listing(compare, d.value);
        forall n | n != [] && Seqs.Count(w.value, NameTest(Read, n)) > 0
          ensures exists x :: x in Sort(compare, Values(d.value.order, d.value.table)) && x.farmer == n
        {
          assert d.value.table[n] in Sort(compare, Values(d.value.order, d.value.table));
        }
      }
    }
  }

  /**
   * A record fails the route exactly when its farmer name is present, not
   * `null` and not a string. Otherwise it is read as its trimmed name (empty
   * when absent or `null`) and is verified exactly when `isGoldStandard` is
   * the boolean `true`.
   */
  lemma ReadMeans(r: Record)
    ensures Read(r).None? <==> "farmerName" in r && !r["farmerName"].Null? && !r["farmerName"].Str?
    ensures Read(r).Some? ==>
      && IsTrimmed(Read(r).value.farmer)
      && (Read(r).value.verified <==> "isGoldStandard" in r && r["isGoldStandard"] == Bool(true))
    ensures "farmerName" in r && r["farmerName"].Str? ==> Read(r) == Some(Seen(Trim(r["farmerName"].s), Read(r).value.verified))
    ensures "farmerName" !in r || r["farmerName"].Null? ==> Read(r).Some? && Read(r).value.farmer == []
  {
    if "farmerName" !in r || r["farmerName"].Null? {
      TrimOfTrimmed("");
    }
  }
}
