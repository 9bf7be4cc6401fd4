/**
 * Folding the submitted form's (name, value) entries into one object
 * (collectFormData, script.js:175-195).
 *
 * A name that occurs once keeps its string; a repeated name (a group of
 * checkboxes) becomes the list of its values. The loop's test is JavaScript
 * truthiness, so a name whose current value is the empty string is
 * overwritten by its next value rather than turned into a list.
 */
module FormEntries {

  /** A collected field: one string, or the list built for a repeated name. */
  datatype Value = Single(text: string) | Multi(items: seq<string>)

  /** One (name, value) pair in form order. */
  type Entry = (string, string)

  /** JavaScript truthiness of a collected value: only the empty string is
      falsy, and an array is truthy whatever it holds. */
  predicate Truthy(v: Value)
    ensures Truthy(v) <==> v != Single("")
  {
    !(v.Single? && v.text == "")
  }

  /** One iteration of the loop body: the object after reading (key, value). */
  function Step(data: map<string, Value>, key: string, value: string): (after: map<string, Value>)
    ensures after.Keys == data.Keys + {key}
    ensures forall k :: k in data && k != key ==> after[k] == data[k]
    ensures !(key in data && Truthy(data[key])) ==> after[key] == Single(value)
    ensures key in data && Truthy(data[key]) ==>
      after[key].Multi? && |after[key].items| >= 1 && after[key].items[|after[key].items| - 1] == value
  {
    if key in data && Truthy(data[key]) then
      match data[key]
      case Multi(xs) => data[key := Multi(xs + [value])]
      case Single(s) => data[key := Multi([s, value])]
    else
      data[key := Single(value)]
  }

  /** The object the loop has built once it has read all of `entries`. */
  function Collected(entries: seq<Entry>): (data: map<string, Value>)
    ensures data.Keys == Names(entries)
  {
    if entries == [] then
      assert Names(entries) == {};
      map[]
    else
      var n := |entries| - 1;
      assert Names(entries) == Names(entries[..n]) + {entries[n].0};
      Step(Collected(entries[..n]), entries[n].0, entries[n].1)
  }

  /** The names that occur in `entries`. */
  function Names(entries: seq<Entry>): set<string>
  {
    set i | 0 <= i < |entries| :: entries[i].0
  }

  /** The values given for `key`, in entry order. */
  function ValuesOf(entries: seq<Entry>, key: string): (vs: seq<string>)
    ensures |vs| <= |entries|
    ensures vs != [] <==> key in Names(entries)
  {
    if entries == [] then []
    else
      var n := |entries| - 1;
      var earlier := ValuesOf(entries[..n], key);
      assert Names(entries) == Names(entries[..n]) + {entries[n].0};
      if entries[n].0 == key then earlier + [entries[n].1] else earlier
  }

  /** The index of the first non-empty string in `vs`, or |vs| if there is none. */
  function FirstNonEmpty(vs: seq<string>): (f: nat)
    ensures f <= |vs|
    ensures forall i :: 0 <= i < f ==> vs[i] == ""
    ensures f < |vs| ==> vs[f] != ""
  {
    if vs == [] then 0
    else if vs[0] != "" then 0
    else 1 + FirstNonEmpty(vs[1..])
  }

  /**
   * What a name with values `vs` ends up holding, stated without the loop:
   * every value before the first non-empty one is lost; from that value on,
   * if any value follows it, all are kept as a list; otherwise the last
   * value stands alone.
   */
  function Expected(vs: seq<string>): Value
    requires vs != []
  {
    var f := FirstNonEmpty(vs);
    if f < |vs| - 1 then Multi(vs[f..]) else Single(vs[|vs| - 1])
  }

  /** The first non-empty index is unchanged by appending once one exists. */
  lemma FirstNonEmptyAppend(vs: seq<string>, v: string)
    ensures FirstNonEmpty(vs) < |vs| ==> FirstNonEmpty(vs + [v]) == FirstNonEmpty(vs)
    ensures FirstNonEmpty(vs) == |vs| && v != "" ==> FirstNonEmpty(vs + [v]) == |vs|
    ensures FirstNonEmpty(vs) == |vs| && v == "" ==> FirstNonEmpty(vs + [v]) == |vs| + 1
  {
    assert forall i :: 0 <= i < |vs| ==> (vs + [v])[i] == vs[i];
    assert (vs + [v])[|vs|] == v;
  }

  /** One loop iteration moves a name's value from Expected(vs) to Expected(vs + [v]). */
  lemma {:induction false} StepExtendsExpected(data: map<string, Value>, key: string, vs: seq<string>, v: string)
    requires vs != [] ==> key in data && data[key] == Expected(vs)
    requires vs == [] ==> key !in data
    ensures key in Step(data, key, v) && Step(data, key, v)[key] == Expected(vs + [v])
  {
    FirstNonEmptyAppend(vs, v);
    var f := FirstNonEmpty(vs);
    if vs != [] {
      if f < |vs| - 1 {
        assert (vs + [v])[f..] == vs[f..] + [v];
      } else if vs[|vs| - 1] != "" {
        assert f == |vs| - 1;
        assert (vs + [v])[f..] == [vs[|vs| - 1], v];
      } else {
        assert f == |vs|;
      }
    }
  }

  /**
   * The object the loop builds, described name by name: its names are
   * exactly the names entered, and each holds Expected of its values.
   */
  lemma {:induction false} CollectedIsExpected(entries: seq<Entry>, key: string)
    ensures key in Collected(entries) <==> key in Names(entries)
    ensures key in Collected(entries) ==> Collected(entries)[key] == Expected(ValuesOf(entries, key))
  {
    if entries != [] {
      var n := |entries| - 1;
      var prefix := entries[..n];
      assert Names(entries) == Names(prefix) + {entries[n].0};
      CollectedIsExpected(prefix, key);
      if entries[n].0 == key {
        StepExtendsExpected(Collected(prefix), key, ValuesOf(prefix, key), entries[n].1);
      }
    }
  }

  /** A name entered once holds that single string. */
  lemma SeenOnce(entries: seq<Entry>, key: string)
    requires |ValuesOf(entries, key)| == 1
    ensures key in Collected(entries)
    ensures Collected(entries)[key] == Single(ValuesOf(entries, key)[0])
  {
    CollectedIsExpected(entries, key);
  }

  /** A name entered k >= 2 times whose first value is non-empty holds all k values in order. */
  lemma RepeatedKeepsAll(entries: seq<Entry>, key: string)
    requires |ValuesOf(entries, key)| >= 2 && ValuesOf(entries, key)[0] != ""
    ensures key in Collected(entries)
    ensures Collected(entries)[key] == Multi(ValuesOf(entries, key))
  {
    CollectedIsExpected(entries, key);
  }

  /** When every value but the last is empty, the last one overwrites them. */
  lemma EmptyValuesOverwritten(entries: seq<Entry>, key: string)
    requires ValuesOf(entries, key) != []
    requires forall i :: 0 <= i < |ValuesOf(entries, key)| - 1 ==> ValuesOf(entries, key)[i] == ""
    ensures key in Collected(entries)
    ensures Collected(entries)[key] == Single(ValuesOf(entries, key)[|ValuesOf(entries, key)| - 1])
  {
    CollectedIsExpected(entries, key);
    NoNonEmptyBeforeLast(ValuesOf(entries, key));
  }

  /** When all values but the last are empty, the first non-empty one is at the end or absent. */
  lemma NoNonEmptyBeforeLast(vs: seq<string>)
    requires forall i :: 0 <= i < |vs| - 1 ==> vs[i] == ""
    ensures FirstNonEmpty(vs) >= |vs| - 1
  {
  }

  /** collectFormData: the `for` loop over the entries, updating `data` in place. */
  method CollectFormData(entries: seq<Entry>) returns (data: map<string, Value>)
    ensures data.Keys == Names(entries)
    ensures forall key :: key in data ==> data[key] == Expected(ValuesOf(entries, key))
  {
    data := map[];
    for i := 0 to |entries|
      invariant data == Collected(entries[..i])
    {
      var (key, value) := entries[i];
      assert entries[..i + 1][..i] == entries[..i];
      if key in data && Truthy(data[key]) {
        match data[key]
        case Multi(xs) =>
          data := data[key := Multi(xs + [value])];
        case Single(s) =>
          data := data[key := Multi([s, value])];
      } else {
        data := data[key := Single(value)];
      }
    }
    assert entries[..|entries|] == entries;
    forall key
      ensures key in data <==> key in Names(entries)
      ensures key in data ==> data[key] == Expected(ValuesOf(entries, key))
    {
      CollectedIsExpected(entries, key);
    }
  }
}
