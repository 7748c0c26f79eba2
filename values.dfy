/**
 * The dynamic values the record builders return: Python dictionaries keyed by
 * integers or strings, lists, and strings. Dictionary order is not modelled;
 * ordering keys is the canonical encoder's job.
 */
module Values {
  import opened Decimal

  datatype Option<T> = None | Some(value: T)

  /** A dictionary key: an unsigned integer (on-chain form) or a string. */
  datatype Key = IKey(n: nat) | SKey(s: string)

  datatype Value =
    | VStr(s: string)
    | VMap(entries: map<Key, Value>)
    | VList(items: seq<Value>)

  /** A `Dict[str, str]` as a dynamic value. */
  function StringMap(p: map<string, string>): (v: Value)
    ensures v.VMap? && |v.entries| == |p|
    ensures forall s {:trigger s in p} {:trigger SKey(s) in v.entries} :: s in p <==> SKey(s) in v.entries
    ensures forall k {:trigger k in v.entries} :: k in v.entries ==> k.SKey? && v.entries[k] == VStr(p[k.s])
  {
    var entries := map s | s in p :: SKey(s) := VStr(p[s]);
    BijectionSize(p.Keys, entries.Keys, s => SKey(s));
    VMap(entries)
  }

  /** An injective function from one finite set onto another: the two have the same size. */
  lemma {:induction false} BijectionSize<A, B>(xs: set<A>, ys: set<B>, f: A -> B)
    requires forall x :: x in xs ==> f(x) in ys
    requires forall y :: y in ys ==> exists x :: x in xs && f(x) == y
    requires forall x, y :: x in xs && y in xs && f(x) == f(y) ==> x == y
    ensures |ys| == |xs|
  {
    if xs != {} {
      var x :| x in xs;
      var xs', ys' := xs - {x}, ys - {f(x)};
      forall y | y in ys' ensures exists x' :: x' in xs' && f(x') == y {
        var x' :| x' in xs && f(x') == y;
      }
      BijectionSize(xs', ys', f);
    } else {
      assert forall y :: y in ys ==> exists x :: x in xs && f(x) == y;
      assert ys == {};
    }
  }

  predicate IsStringEntries(e: map<Key, Value>) {
    forall k {:trigger k in e} :: k in e ==> k.SKey? && e[k].VStr?
  }

  function StringEntries(e: map<Key, Value>): (p: map<string, string>)
    requires IsStringEntries(e)
    ensures forall s {:trigger s in p} {:trigger SKey(s) in e} :: s in p <==> SKey(s) in e
    ensures forall s {:trigger s in p} :: s in p ==> p[s] == e[SKey(s)].s
  {
    map k | k in e :: k.s := e[k].s
  }

  /** Reads a value back as a `Dict[str, str]`, if it is one. */
  function AsStringMap(v: Value): Option<map<string, string>> {
    if v.VMap? && IsStringEntries(v.entries) then Some(StringEntries(v.entries)) else None
  }

  lemma StringMapRoundTrip(p: map<string, string>)
    ensures AsStringMap(StringMap(p)) == Some(p)
  {
    var v := StringMap(p);
    assert IsStringEntries(v.entries);
    var q := StringEntries(v.entries);
    assert q == p;
  }

  /**
   * Replaces the integer key `code` of a single-entry map by its decimal
   * text; every other value is returned unchanged.
   */
  function TextLabel(v: Value, code: nat): Value {
    if v.VMap? && |v.entries| == 1 && IKey(code) in v.entries then
      VMap(map[SKey(NatToDecimal(code)) := v.entries[IKey(code)]])
    else
      v
  }
}
