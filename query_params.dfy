// Query parameters as the endpoint parameter structs produce them: an
// ordered list of `(key, value)` pairs, one for every optional field that is
// set, in the fixed order of the struct's fields.

module QueryParams {
  import opened Wrappers
  import opened Text

  /** One `(key, value)` pair of a query string. */
  type Pair = (string, string)

  /** A parameter slot: its wire key and its rendered value, when set. */
  type Field = (string, Option<string>)

  /** A GET request before its URL is built: the endpoint and its query pairs. */
  datatype GetRequest = GetRequest(endpoint: string, params: seq<Pair>)

  /** The pairs one slot contributes: one when it is set, none otherwise. */
  function Entry(f: Field): seq<Pair> {
    if f.1.Some? then [(f.0, f.1.value)] else []
  }

  /** The pairs of the set slots, in slot order. */
  function Present(fs: seq<Field>): (r: seq<Pair>)
    ensures |r| <= |fs|
  {
    if fs == [] then [] else Present(fs[..|fs| - 1]) + Entry(fs[|fs| - 1])
  }

  /** One guarded `push`: appends the pair when the value is set. */
  function PushSome(params: seq<Pair>, key: string, v: Option<string>): (r: seq<Pair>)
    ensures r == params + Entry((key, v))
  {
    if v.Some? then params + [(key, v.value)] else params
  }

  /** Decimal rendering of an optional `i32`, `u8` or `u32` value (`to_string`). */
  function IntValue(v: Option<I32>): Option<string> {
    if v.Some? then Some(Decimal(v.value as int)) else None
  }

  function ByteValue(v: Option<U8>): Option<string> {
    if v.Some? then Some(Decimal(v.value as int)) else None
  }

  function PageValue(v: Option<U32>): Option<string> {
    if v.Some? then Some(Decimal(v.value as int)) else None
  }

  /** A `bool` that adds the literal value `"true"` only when it is set. */
  function TrueValue(b: bool): Option<string> {
    if b then Some("true") else None
  }

  /** Number of slots that are set. */
  function SetCount(fs: seq<Field>): nat {
    if fs == [] then 0 else SetCount(fs[..|fs| - 1]) + (if fs[|fs| - 1].1.Some? then 1 else 0)
  }

  /** Indices of the set slots, ascending. */
  function Positions(fs: seq<Field>): (ps: seq<nat>)
    ensures forall m :: 0 <= m < |ps| ==> ps[m] < |fs| && fs[ps[m]].1.Some?
    ensures forall m, n :: 0 <= m < n < |ps| ==> ps[m] < ps[n]
  {
    if fs == [] then []
    else if fs[|fs| - 1].1.Some? then Positions(fs[..|fs| - 1]) + [|fs| - 1]
    else Positions(fs[..|fs| - 1])
  }

  predicate DistinctKeys(fs: seq<Field>) {
    forall i, j :: 0 <= i < j < |fs| ==> fs[i].0 != fs[j].0
  }

  predicate DistinctPairKeys(ps: seq<Pair>) {
    forall i, j :: 0 <= i < j < |ps| ==> ps[i].0 != ps[j].0
  }

  function Keys(fs: seq<Field>): (ks: seq<string>)
    ensures |ks| == |fs| && forall i :: 0 <= i < |fs| ==> ks[i] == fs[i].0
  {
    if fs == [] then [] else Keys(fs[..|fs| - 1]) + [fs[|fs| - 1].0]
  }

  lemma PresentSnoc(fs: seq<Field>, f: Field)
    ensures Present(fs + [f]) == Present(fs) + Entry(f)
  {
    assert (fs + [f])[..|fs|] == fs;
  }

  /** A guarded `push`: the slot joins the slots already pushed. */
  lemma PushNext(params: seq<Pair>, fs: seq<Field>, key: string, v: Option<string>)
    requires params == Present(fs)
    ensures PushSome(params, key, v) == Present(fs + [(key, v)])
  {
    PresentSnoc(fs, (key, v));
  }

  /** A guarded `push` after fixed leading pairs: the slot joins the slots already pushed. */
  lemma PushAfter(params: seq<Pair>, head: seq<Pair>, fs: seq<Field>, key: string, v: Option<string>)
    requires params == head + Present(fs)
    ensures PushSome(params, key, v) == head + Present(fs + [(key, v)])
  {
    PresentSnoc(fs, (key, v));
  }

  /** The pairs of the first k + 1 slots extend those of the first k. */
  lemma PresentStep(fs: seq<Field>, k: nat)
    requires k < |fs|
    ensures Present(fs[..k + 1]) == Present(fs[..k]) + Entry(fs[k])
  {
    assert fs[..k + 1][..k] == fs[..k];
  }

  /** Each set slot contributes exactly one pair. */
  lemma {:induction false} PresentLength(fs: seq<Field>)
    ensures |Present(fs)| == SetCount(fs)
  {
    if fs != [] {
      PresentLength(fs[..|fs| - 1]);
    }
  }

  /** The pairs of two runs of slots are the pairs of each, one after the other. */
  lemma {:induction false} PresentAppend(a: seq<Field>, b: seq<Field>)
    ensures Present(a + b) == Present(a) + Present(b)
  {
    if b == [] {
      assert a + b == a;
    } else {
      var init, last := b[..|b| - 1], b[|b| - 1];
      assert b == init + [last];
      assert a + b == (a + init) + [last];
      PresentAppend(a, init);
      PresentSnoc(a + init, last);
      PresentSnoc(init, last);
      calc {
        Present(a + b);
        Present(a + init) + Entry(last);
        (Present(a) + Present(init)) + Entry(last);
        Present(a) + (Present(init) + Entry(last));
        Present(a) + Present(b);
      }
    }
  }

  /** The pairs of the first b slots: those of the first a, then those of the slots a to b. */
  lemma PresentSplit(fs: seq<Field>, a: nat, b: nat)
    requires a <= b <= |fs|
    ensures Present(fs[..b]) == Present(fs[..a]) + Present(fs[a..b])
  {
    assert fs[..b] == fs[..a] + fs[a..b];
    PresentAppend(fs[..a], fs[a..b]);
  }

  /** A run of unset slots adds nothing to the pairs before it. */
  lemma {:induction false} PresentUnsetRun(fs: seq<Field>, a: nat, b: nat)
    requires a <= b <= |fs|
    requires forall m :: a <= m < b ==> fs[m].1.None?
    ensures Present(fs[..b]) == Present(fs[..a])
  {
    if a < b {
      PresentUnsetRun(fs, a, b - 1);
      PresentStep(fs, b - 1);
    }
  }

  /** Unset slots from a up to a set slot k: the pairs grow by slot k's pair alone. */
  lemma NextSet(fs: seq<Field>, a: nat, k: nat, before: seq<Pair>)
    requires a <= k < |fs| && fs[k].1.Some?
    requires forall m :: a <= m < k ==> fs[m].1.None?
    requires Present(fs[..a]) == before
    ensures Present(fs[..k + 1]) == before + [(fs[k].0, fs[k].1.value)]
  {
    PresentUnsetRun(fs, a, k);
    PresentStep(fs, k);
  }

  /** Slot k of a longer run matches slot j of a shorter one: the pairs before both stay equal. */
  lemma MatchedStep(fs: seq<Field>, k: nat, cs: seq<Field>, j: nat)
    requires k < |fs| && j < |cs| && fs[k] == cs[j]
    requires Present(fs[..k]) == Present(cs[..j])
    ensures Present(fs[..k + 1]) == Present(cs[..j + 1])
  {
    PresentStep(fs, k);
    PresentStep(cs, j);
  }

  /** An unset slot adds nothing to the pairs before it. */
  lemma UnsetStep(fs: seq<Field>, k: nat)
    requires k < |fs| && fs[k].1.None?
    ensures Present(fs[..k + 1]) == Present(fs[..k])
  {
    PresentStep(fs, k);
  }

  /** No pair at all exactly when no slot is set. */
  lemma {:induction false} PresentEmpty(fs: seq<Field>)
    ensures Present(fs) == [] <==> forall i :: 0 <= i < |fs| ==> fs[i].1.None?
  {
    if fs != [] {
      var init := fs[..|fs| - 1];
      PresentEmpty(init);
      if Present(fs) == [] {
        forall i | 0 <= i < |fs| ensures fs[i].1.None? {
          if i < |fs| - 1 { assert fs[i] == init[i]; }
        }
      } else if fs[|fs| - 1].1.None? {
        var i :| 0 <= i < |init| && init[i].1.Some?;
        assert fs[i] == init[i];
      }
    }
  }

  /** Slots that are all unset send nothing. */
  lemma {:induction false} PresentNone(fs: seq<Field>)
    requires forall i :: 0 <= i < |fs| ==> fs[i].1.None?
    ensures Present(fs) == []
  {
    if fs != [] {
      PresentNone(fs[..|fs| - 1]);
    }
  }

  /**
   * The m-th pair comes from the m-th set slot: its key is that slot's key
   * and its value that slot's value, unchanged. With `Positions` ascending,
   * this says the pairs keep the slots' order.
   */
  lemma {:induction false} PresentFromPositions(fs: seq<Field>)
    ensures |Present(fs)| == |Positions(fs)|
    ensures forall m :: 0 <= m < |Present(fs)| ==>
      Present(fs)[m] == (fs[Positions(fs)[m]].0, fs[Positions(fs)[m]].1.value)
  {
    if fs != [] {
      var init := fs[..|fs| - 1];
      PresentFromPositions(init);
      forall m | 0 <= m < |Positions(init)| ensures fs[Positions(init)[m]] == init[Positions(init)[m]] { }
    }
  }

  /** A pair is sent exactly when some slot carries that key and value. */
  lemma {:induction false} PresentMember(fs: seq<Field>, key: string, value: string)
    ensures (key, value) in Present(fs) <==> exists i :: 0 <= i < |fs| && fs[i] == (key, Some(value))
  {
    if fs != [] {
      var init := fs[..|fs| - 1];
      PresentMember(init, key, value);
      if (key, value) in Present(fs) && (key, value) in Present(init) {
        var i :| 0 <= i < |init| && init[i] == (key, Some(value));
        assert fs[i] == init[i];
      }
      if exists i :: 0 <= i < |fs| && fs[i] == (key, Some(value)) {
        var i :| 0 <= i < |fs| && fs[i] == (key, Some(value));
        if i < |init| {
          assert init[i] == fs[i];
        }
      }
    }
  }

  /** Slots with distinct keys never send a key twice. */
  lemma PresentDistinct(fs: seq<Field>)
    requires DistinctKeys(fs)
    ensures DistinctPairKeys(Present(fs))
  {
    PresentFromPositions(fs);
    var ps := Positions(fs);
    forall m, n | 0 <= m < n < |Present(fs)| ensures Present(fs)[m].0 != Present(fs)[n].0 {
      assert ps[m] < ps[n];
    }
  }

  /** A leading pair whose key no slot carries, then the slots' pairs: still no key twice. */
  lemma PrefixedDistinct(key: string, value: string, fs: seq<Field>)
    requires DistinctKeys(fs) && key !in Keys(fs)
    ensures DistinctPairKeys([(key, value)] + Present(fs))
  {
    PresentDistinct(fs);
    PresentFromPositions(fs);
    var qs := Present(fs);
    var ps := [(key, value)] + qs;
    forall m, n | 0 <= m < n < |ps| ensures ps[m].0 != ps[n].0 {
      assert ps[n] == qs[n - 1];
      if m == 0 {
        var k := Positions(fs)[n - 1];
        assert Keys(fs)[k] == qs[n - 1].0;
      } else {
        assert ps[m] == qs[m - 1];
      }
    }
  }
}
