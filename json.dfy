/**
 * The untyped JSON trees that dashboards and datasource records are made of,
 * and the few Python operations on them that the backup and restore scripts
 * use: `k in x`, `x[k]`, `x.get(k, d)`, `x[k] = v`, `x.pop(k, None)`,
 * iteration, truthiness and `str.strip()`.
 *
 * An object is its entries in insertion order, as a Python dict keeps them.
 * Python dicts never hold a key twice (and `json.load` keeps the last of a
 * repeated key); every operation below agrees with Python's on such objects.
 */
module JsonTree {
  import opened Text

  datatype Option<T> = None | Some(value: T)

  /** Numbers are integers here. */
  datatype Json =
    | JNull
    | JBool(b: bool)
    | JNum(n: int)
    | JStr(s: string)
    | JArr(elems: seq<Json>)
    | JObj(fields: seq<Entry>)

  datatype Entry = Entry(key: string, val: Json)

  /**
   * How a script run ends early: an uncaught Python exception (which
   * exception it is does not matter to any caller), or `sys.exit(code)`.
   */
  datatype Failure = Raised | Exit(code: int)

  datatype Outcome<T> = Ok(value: T) | Fail(failure: Failure) {
    predicate IsFailure() { Fail? }
    function PropagateFailure<U>(): Outcome<U>
      requires Fail?
    {
      Fail(failure)
    }
    function Extract(): T
      requires Ok?
    {
      value
    }
  }

  /** `k in d` for a dict `d` with entries `fs`. */
  predicate Has(fs: seq<Entry>, k: string)
  {
    exists i :: 0 <= i < |fs| && fs[i].key == k
  }

  /** The position of the entry for `k`, or `|fs|` when there is none. */
  function Find(fs: seq<Entry>, k: string): (i: nat)
    ensures i <= |fs|
    ensures i < |fs| ==> fs[i].key == k
    ensures forall j :: 0 <= j < i ==> fs[j].key != k
    ensures i < |fs| <==> Has(fs, k)
  {
    if fs == [] then 0
    else if fs[0].key == k then 0
    else 1 + Find(fs[1..], k)
  }

  /** `d[k]` when `k in d`: the value of the first entry for `k`. */
  function Get(fs: seq<Entry>, k: string): (r: Option<Json>)
    ensures r.Some? <==> Has(fs, k)
    ensures r.Some? ==> r.value == fs[Find(fs, k)].val
  {
    if fs == [] then None
    else if fs[0].key == k then Some(fs[0].val)
    else Get(fs[1..], k)
  }

  /** `d.get(k, default)` on a dict. */
  function GetOr(fs: seq<Entry>, k: string, default: Json): (r: Json)
    ensures !Has(fs, k) ==> r == default
    ensures Has(fs, k) ==> Some(r) == Get(fs, k)
  {
    match Get(fs, k)
    case Some(v) => v
    case None => default
  }

  /** Writing `v` into the first entry for a key makes the key look up to `v`. */
  lemma {:induction false} GetUpdateFirst(fs: seq<Entry>, i: nat, v: Json)
    requires i < |fs| && Find(fs, fs[i].key) == i
    ensures Get(fs[i := Entry(fs[i].key, v)], fs[i].key) == Some(v)
  {
    if i > 0 {
      var updated := fs[i := Entry(fs[i].key, v)];
      assert updated[0] == fs[0];
      assert updated[1..] == fs[1..][i - 1 := Entry(fs[i].key, v)];
      assert fs[0].key != fs[i].key && fs[1..][i - 1] == fs[i];
      GetUpdateFirst(fs[1..], i - 1, v);
    }
  }

  /** Writing into the entry at position `i` leaves every other key's lookup alone. */
  lemma {:induction false} GetUpdateOther(fs: seq<Entry>, i: nat, v: Json, k: string)
    requires i < |fs| && k != fs[i].key
    ensures Get(fs[i := Entry(fs[i].key, v)], k) == Get(fs, k)
  {
    var updated := fs[i := Entry(fs[i].key, v)];
    if i == 0 {
      assert updated[1..] == fs[1..];
    } else if fs[0].key != k {
      assert updated[1..] == fs[1..][i - 1 := Entry(fs[i].key, v)];
      GetUpdateOther(fs[1..], i - 1, v, k);
    }
  }

  lemma {:induction false} GetAppend(fs: seq<Entry>, e: Entry, k: string)
    ensures Get(fs + [e], k) == if Has(fs, k) then Get(fs, k) else if e.key == k then Some(e.val) else None
  {
    if fs != [] {
      assert (fs + [e])[1..] == fs[1..] + [e];
      GetAppend(fs[1..], e, k);
    }
  }

  /**
   * `d[k] = v`: an existing key keeps its place and gets the new value; a new
   * key goes at the end. Afterwards `k` holds `v` and every other key holds
   * what it held before; assigning the value a key already holds changes
   * nothing.
   */
  function SetKey(fs: seq<Entry>, k: string, v: Json): (r: seq<Entry>)
    ensures Get(r, k) == Some(v)
    ensures forall k' :: k' != k ==> Get(r, k') == Get(fs, k')
    ensures Has(fs, k) ==> r == fs[Find(fs, k) := Entry(k, v)]
    ensures !Has(fs, k) ==> r == fs + [Entry(k, v)]
    ensures Get(fs, k) == Some(v) ==> r == fs
  {
    if Has(fs, k) then
      var i := Find(fs, k);
      var r := fs[i := Entry(k, v)];
      GetUpdateFirst(fs, i, v);
      forall k' | k' != k ensures Get(r, k') == Get(fs, k') {
        GetUpdateOther(fs, i, v, k');
      }
      r
    else
      var r := fs + [Entry(k, v)];
      GetAppend(fs, Entry(k, v), k);
      forall k' | k' != k ensures Get(r, k') == Get(fs, k') {
        GetAppend(fs, Entry(k, v), k');
      }
      r
  }

  /** The keys of a dict, in order. */
  function Keys(fs: seq<Entry>): seq<string>
  {
    seq(|fs|, m requires 0 <= m < |fs| => fs[m].key)
  }

  /** Where a key sits depends on the keys alone, not on the values. */
  lemma {:induction false} FindSameKeys(a: seq<Entry>, b: seq<Entry>, k: string)
    requires Keys(a) == Keys(b)
    ensures Find(a, k) == Find(b, k)
  {
    if a != [] {
      assert |b| == |Keys(b)| == |Keys(a)|;
      assert a[0].key == Keys(a)[0] == Keys(b)[0] == b[0].key;
      assert Keys(a[1..]) == Keys(a)[1..];
      assert Keys(b[1..]) == Keys(b)[1..];
      FindSameKeys(a[1..], b[1..], k);
    }
  }

  /** Writing a new value into an entry keeps every key where it was. */
  lemma FindAfterWrite(fs: seq<Entry>, i: nat, v: Json, k: string)
    requires i < |fs|
    ensures Find(fs[i := Entry(fs[i].key, v)], k) == Find(fs, k)
  {
    assert Keys(fs[i := Entry(fs[i].key, v)]) == Keys(fs);
    FindSameKeys(fs[i := Entry(fs[i].key, v)], fs, k);
  }

  /**
   * `d.pop(k, None)`: every entry for `k` goes, the others stay in order, and
   * a dict without `k` is left as it is.
   */
  function PopKey(fs: seq<Entry>, k: string): (r: seq<Entry>)
    ensures !Has(r, k)
    ensures forall k' :: k' != k ==> Get(r, k') == Get(fs, k')
    ensures forall e :: e in r <==> e in fs && e.key != k
    ensures !Has(fs, k) ==> r == fs
  {
    if fs == [] then []
    else if fs[0].key == k then PopKey(fs[1..], k)
    else [fs[0]] + PopKey(fs[1..], k)
  }

  /** `k in x` on any value: a key test on a dict, membership on a list, a substring test on a str. */
  function PyIn(x: Json, k: string): (r: Outcome<bool>)
    ensures x.JObj? ==> r == Ok(Has(x.fields, k))
    ensures x.JArr? ==> r == Ok(JStr(k) in x.elems)
    ensures x.JStr? ==> r == Ok(IsSubstring(k, x.s))
    ensures r.Fail? <==> !(x.JObj? || x.JArr? || x.JStr?)
  {
    match x
    case JObj(fs) => Ok(Has(fs, k))
    case JArr(es) => Ok(JStr(k) in es)
    case JStr(s) => Ok(IsSubstring(k, s))
    case _ => Fail(Raised)
  }

  /** `k` occurs in `s` at some position. */
  predicate IsSubstring(k: string, s: string)
  {
    k <= s || (s != [] && IsSubstring(k, s[1..]))
  }

  /** `x[k]` with a str key: only a dict holding `k` answers; anything else raises. */
  function PyGet(x: Json, k: string): (r: Outcome<Json>)
    ensures r.Ok? <==> x.JObj? && Has(x.fields, k)
    ensures r.Ok? ==> Get(x.fields, k) == Some(r.value)
  {
    if x.JObj? && Has(x.fields, k) then Ok(Get(x.fields, k).value) else Fail(Raised)
  }

  /** `x.get(k, default)`: only a dict has `get`. */
  function DictGet(x: Json, k: string, default: Json): (r: Outcome<Json>)
    ensures r.Ok? <==> x.JObj?
    ensures r.Ok? ==> r.value == GetOr(x.fields, k, default)
  {
    if x.JObj? then Ok(GetOr(x.fields, k, default)) else Fail(Raised)
  }

  /** What `for e in x` yields: list elements, dict keys, one-character strings. */
  function PyIter(x: Json): (r: Outcome<seq<Json>>)
    ensures x.JArr? ==> r == Ok(x.elems)
    ensures r.Fail? <==> !(x.JObj? || x.JArr? || x.JStr?)
    ensures x.JObj? ==> r.Ok? && |r.value| == |x.fields|
    ensures x.JObj? ==> forall i :: 0 <= i < |x.fields| ==> r.value[i] == JStr(x.fields[i].key)
    ensures x.JStr? ==> r.Ok? && |r.value| == |x.s|
    ensures x.JStr? ==> forall i :: 0 <= i < |x.s| ==> r.value[i] == JStr([x.s[i]])
  {
    match x
    case JArr(es) => Ok(es)
    case JObj(fs) => Ok(seq(|fs|, i requires 0 <= i < |fs| => JStr(fs[i].key)))
    case JStr(s) => Ok(seq(|s|, i requires 0 <= i < |s| => JStr([s[i]])))
    case _ => Fail(Raised)
  }

  /** `x.strip()`: only a str has `strip`. */
  function Strip(x: Json): (r: Outcome<string>)
    ensures r.Ok? <==> x.JStr?
    ensures r.Ok? ==> IsTrimmed(r.value)
    ensures r.Ok? ==> r.value == Trim(x.s)
  {
    if x.JStr? then Ok(Trim(x.s)) else Fail(Raised)
  }

  /** Python truthiness: `None`, `False`, `0`, `""`, `[]` and `{}` are false. */
  predicate Truthy(x: Json)
  {
    match x
    case JNull => false
    case JBool(b) => b
    case JNum(n) => n != 0
    case JStr(s) => s != ""
    case JArr(es) => es != []
    case JObj(fs) => fs != []
  }

  /**
   * A Python loop that applies `f` to each element in order and stops at the
   * first exception: either every element succeeded, and the results line up
   * with the inputs, or the run failed.
   */
  function MapOutcome<A, B>(xs: seq<A>, f: A -> Outcome<B>): (r: Outcome<seq<B>>)
    ensures r.Ok? ==> |r.value| == |xs| && forall i :: 0 <= i < |xs| ==> f(xs[i]) == Ok(r.value[i])
    ensures r.Ok? <==> forall i :: 0 <= i < |xs| ==> f(xs[i]).Ok?
  {
    if xs == [] then Ok([])
    else
      var init :- MapOutcome(xs[..|xs| - 1], f);
      var last :- f(xs[|xs| - 1]);
      Ok(init + [last])
  }

  /** One more step of the loop appends that step's result. */
  lemma MapOutcomeStep<A, B>(xs: seq<A>, f: A -> Outcome<B>, k: nat, acc: seq<B>, y: B)
    requires k < |xs| && MapOutcome(xs[..k], f) == Ok(acc) && f(xs[k]) == Ok(y)
    ensures MapOutcome(xs[..k + 1], f) == Ok(acc + [y])
  {
    assert xs[..k + 1][..k] == xs[..k];
  }

  /** Once a prefix of the loop has failed, the whole loop fails the same way. */
  lemma {:induction false} MapOutcomePrefixFail<A, B>(xs: seq<A>, f: A -> Outcome<B>, j: nat)
    requires j <= |xs| && MapOutcome(xs[..j], f).Fail?
    ensures MapOutcome(xs, f) == MapOutcome(xs[..j], f)
    decreases |xs| - j
  {
    if j < |xs| {
      assert xs[..|xs| - 1][..j] == xs[..j];
      MapOutcomePrefixFail(xs[..|xs| - 1], f, j);
      if j == |xs| - 1 {
        assert xs[..|xs| - 1] == xs[..j];
      }
    } else {
      assert xs[..j] == xs;
    }
  }

  /**
   * The tree with the value of every `datasource` entry, at any depth,
   * replaced by null: two trees with the same erasure differ at most in
   * what their `datasource` entries hold.
   */
  function EraseRefs(j: Json): Json
  {
    match j
    case JObj(fs) =>
      JObj(seq(|fs|, i requires 0 <= i < |fs| =>
        Entry(fs[i].key, if fs[i].key == "datasource" then JNull else EraseRefs(fs[i].val))))
    case JArr(es) => JArr(seq(|es|, i requires 0 <= i < |es| => EraseRefs(es[i])))
    case _ => j
  }

  /**
   * A Python loop that updates an accumulator with `f` for each element in
   * order and stops at the first exception.
   */
  function FoldOutcome<S, A>(xs: seq<A>, init: S, f: (S, A) -> Outcome<S>): Outcome<S>
  {
    if xs == [] then Ok(init)
    else
      var acc :- FoldOutcome(xs[..|xs| - 1], init, f);
      f(acc, xs[|xs| - 1])
  }

  /** Once a prefix of the loop has failed, the whole loop fails the same way. */
  lemma {:induction false} FoldOutcomePrefixFail<S, A>(xs: seq<A>, init: S, f: (S, A) -> Outcome<S>, j: nat)
    requires j <= |xs| && FoldOutcome(xs[..j], init, f).Fail?
    ensures FoldOutcome(xs, init, f) == FoldOutcome(xs[..j], init, f)
    decreases |xs| - j
  {
    if j < |xs| {
      assert xs[..|xs| - 1][..j] == xs[..j];
      FoldOutcomePrefixFail(xs[..|xs| - 1], init, f, j);
      if j == |xs| - 1 {
        assert xs[..|xs| - 1] == xs[..j];
      }
    } else {
      assert xs[..j] == xs;
    }
  }

  /** Some element of `xs` yields `v` under `f`. */
  predicate Yields<A, B(==)>(xs: seq<A>, f: A -> Option<B>, v: B)
  {
    exists i :: 0 <= i < |xs| && f(xs[i]) == Some(v)
  }

  lemma YieldsSnoc<A, B>(xs: seq<A>, f: A -> Option<B>, v: B)
    requires xs != []
    ensures Yields(xs, f, v) <==> Yields(xs[..|xs| - 1], f, v) || f(xs[|xs| - 1]) == Some(v)
  {
    var init := xs[..|xs| - 1];
    if Yields(init, f, v) {
      var i :| 0 <= i < |init| && f(init[i]) == Some(v);
      assert xs[i] == init[i];
    }
    if Yields(xs, f, v) {
      var i :| 0 <= i < |xs| && f(xs[i]) == Some(v);
      if i < |init| {
        assert init[i] == xs[i];
      }
    }
  }

  /**
   * A Python loop that returns the first thing `f` finds along `xs`: it
   * stops at the first element for which `f` gives `Some`, or at the first
   * exception, and finds nothing when it runs off the end.
   */
  function FirstSome<A, B>(xs: seq<A>, f: A -> Outcome<Option<B>>): Outcome<Option<B>>
  {
    if xs == [] then Ok(None)
    else
      var o :- f(xs[0]);
      if o.Some? then Ok(o) else FirstSome(xs[1..], f)
  }

  /** An element that finds something, after elements that found nothing, ends the scan. */
  lemma {:induction false} FirstSomeAt<A, B>(xs: seq<A>, f: A -> Outcome<Option<B>>, k: nat)
    requires k < |xs| && f(xs[k]).Ok? && f(xs[k]).value.Some?
    requires forall j :: 0 <= j < k ==> f(xs[j]) == Ok(None)
    ensures FirstSome(xs, f) == f(xs[k])
  {
    if k > 0 {
      forall j | 0 <= j < k - 1 ensures f(xs[1..][j]) == Ok(None) {
        assert xs[1..][j] == xs[j + 1];
      }
      FirstSomeAt(xs[1..], f, k - 1);
    }
  }

  /** Whatever the scan finds, some element found it and every element before it found nothing. */
  lemma {:induction false} FirstSomeFound<A, B>(xs: seq<A>, f: A -> Outcome<Option<B>>)
    requires FirstSome(xs, f).Ok? && FirstSome(xs, f).value.Some?
    ensures exists k :: 0 <= k < |xs| && f(xs[k]) == FirstSome(xs, f) &&
              forall j :: 0 <= j < k ==> f(xs[j]) == Ok(None)
  {
    if f(xs[0]) != Ok(None) {
      assert f(xs[0]) == FirstSome(xs, f);
    } else {
      var rest := xs[1..];
      FirstSomeFound(rest, f);
      var k :| 0 <= k < |rest| && f(rest[k]) == FirstSome(rest, f) &&
               forall j :: 0 <= j < k ==> f(rest[j]) == Ok(None);
      assert xs[k + 1] == rest[k];
      forall j | 0 <= j < k + 1 ensures f(xs[j]) == Ok(None) {
        if j > 0 {
          assert xs[j] == rest[j - 1];
        }
      }
    }
  }

  /** The scan finds nothing exactly when every element was inspected and found nothing. */
  lemma {:induction false} FirstSomeNone<A, B>(xs: seq<A>, f: A -> Outcome<Option<B>>)
    ensures FirstSome(xs, f) == Ok(None) <==> forall k :: 0 <= k < |xs| ==> f(xs[k]) == Ok(None)
  {
    if xs != [] {
      var rest := xs[1..];
      FirstSomeNone(rest, f);
      if f(xs[0]) == Ok(None) {
        if forall k :: 0 <= k < |rest| ==> f(rest[k]) == Ok(None) {
          forall k | 0 <= k < |xs| ensures f(xs[k]) == Ok(None) {
            if k > 0 {
              assert xs[k] == rest[k - 1];
            }
          }
        } else {
          var k :| 0 <= k < |rest| && f(rest[k]) != Ok(None);
          assert rest[k] == xs[k + 1];
        }
      }
    }
  }

  /**
   * A Python loop that extends a list with what `f` yields for each element
   * in order (one item, or none for an element it filters out) and stops at
   * the first exception.
   */
  function FlatMapOutcome<A, B>(xs: seq<A>, f: A -> Outcome<seq<B>>): Outcome<seq<B>>
  {
    if xs == [] then Ok([])
    else
      var init :- FlatMapOutcome(xs[..|xs| - 1], f);
      var last :- f(xs[|xs| - 1]);
      Ok(init + last)
  }

  /** Once a prefix of the loop has failed, the whole loop fails the same way. */
  lemma {:induction false} FlatMapOutcomePrefixFail<A, B>(xs: seq<A>, f: A -> Outcome<seq<B>>, j: nat)
    requires j <= |xs| && FlatMapOutcome(xs[..j], f).Fail?
    ensures FlatMapOutcome(xs, f) == FlatMapOutcome(xs[..j], f)
    decreases |xs| - j
  {
    if j < |xs| {
      assert xs[..|xs| - 1][..j] == xs[..j];
      FlatMapOutcomePrefixFail(xs[..|xs| - 1], f, j);
      if j == |xs| - 1 {
        assert xs[..|xs| - 1] == xs[..j];
      }
    } else {
      assert xs[..j] == xs;
    }
  }

  /**
   * The loop over `xs + ys` yields what the loop over `xs` yields followed by
   * what the loop over `ys` yields, and fails with the first failure of the
   * two: the output keeps the input's order.
   */
  lemma {:induction false} FlatMapOutcomeAppend<A, B>(xs: seq<A>, ys: seq<A>, f: A -> Outcome<seq<B>>)
    ensures FlatMapOutcome(xs + ys, f) ==
              match FlatMapOutcome(xs, f)
              case Fail(e) => Fail(e)
              case Ok(a) =>
                match FlatMapOutcome(ys, f)
                case Fail(e) => Fail(e)
                case Ok(b) => Ok(a + b)
    decreases |ys|
  {
    if ys == [] {
      assert xs + ys == xs;
      var a := FlatMapOutcome(xs, f);
      if a.Ok? {
        assert a.value + [] == a.value;
      }
    } else {
      var init := ys[..|ys| - 1];
      assert (xs + ys)[..|xs + ys| - 1] == xs + init;
      assert (xs + ys)[|xs + ys| - 1] == ys[|ys| - 1];
      FlatMapOutcomeAppend(xs, init, f);
      var a := FlatMapOutcome(xs, f);
      var b := FlatMapOutcome(init, f);
      var c := f(ys[|ys| - 1]);
      if a.Ok? && b.Ok? && c.Ok? {
        assert a.value + b.value + c.value == a.value + (b.value + c.value);
      }
    }
  }

  /** A loop whose every step returns its element unchanged returns the list unchanged. */
  lemma MapOutcomeIdentity<A>(xs: seq<A>, f: A -> Outcome<A>)
    requires forall i :: 0 <= i < |xs| ==> f(xs[i]) == Ok(xs[i])
    ensures MapOutcome(xs, f) == Ok(xs)
  {
    var r := MapOutcome(xs, f);
    assert r.Ok?;
    assert r.value == xs;
  }
}
