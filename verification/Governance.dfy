/** Merging governance annotations: lists keep the first occurrence of each entry, later
    `extra` values win. */
module GovernanceMerge {
  import opened Domain

  /** `s` without repetitions, each entry where it first occurs. */
  function Distinct<T(==)>(s: seq<T>): seq<T> {
    if s == [] then
      []
    else
      var n := |s| - 1;
      if s[n] in s[..n] then Distinct(s[..n]) else Distinct(s[..n]) + [s[n]]
  }

  datatype Field = Labels | Classifications | AccessNotes

  function FieldOf(g: Governance, field: Field): seq<string> {
    match field
    case Labels => g.labels
    case Classifications => g.classifications
    case AccessNotes => g.accessNotes
  }

  /** The entries one field contributes over all present items, in order. */
  function Entries(items: seq<Option<Governance>>, field: Field): seq<string> {
    if items == [] then
      []
    else
      var n := |items| - 1;
      if items[n].Some? then Entries(items[..n], field) + FieldOf(items[n].value, field) else Entries(items[..n], field)
  }

  function Extras(items: seq<Option<Governance>>): map<string, string> {
    if items == [] then
      map[]
    else
      var n := |items| - 1;
      if items[n].Some? then Extras(items[..n]) + items[n].value.extra else Extras(items[..n])
  }

  function Merge(items: seq<Option<Governance>>): Option<Governance> {
    if exists item :: item in items && item.Some? then
      Some(Governance(
        Distinct(Entries(items, Labels)),
        Distinct(Entries(items, Classifications)),
        Distinct(Entries(items, AccessNotes)),
        Extras(items)))
    else
      None
  }

  /** The `if x not in acc: acc.append(x)` loop. */
  method AppendNew(acc: seq<string>, more: seq<string>, ghost before: seq<string>) returns (r: seq<string>)
    requires acc == Distinct(before)
    ensures r == Distinct(before + more)
  {
    r := acc;
    assert before + more[..0] == before;
    for i := 0 to |more|
      invariant r == Distinct(before + more[..i])
    {
      assert before + more[..i + 1] == before + more[..i] + [more[i]];
      DistinctElements(before + more[..i]);
      DistinctAppend(before + more[..i], more[i]);
      if more[i] !in r {
        r := r + [more[i]];
      }
    }
    assert more[..|more|] == more;
  }

  method MergeGovernance(items: seq<Option<Governance>>) returns (r: Option<Governance>)
    ensures r == Merge(items)
  {
    var labels, classifications, notes: seq<string> := [], [], [];
    var extra: map<string, string> := map[];
    var found := false;
    for i := 0 to |items|
      invariant labels == Distinct(Entries(items[..i], Labels))
      invariant classifications == Distinct(Entries(items[..i], Classifications))
      invariant notes == Distinct(Entries(items[..i], AccessNotes))
      invariant extra == Extras(items[..i])
      invariant found <==> exists item :: item in items[..i] && item.Some?
    {
      assert items[..i + 1][..i] == items[..i];
      assert forall item :: item in items[..i + 1] <==> item in items[..i] || item == items[i];
      if items[i].Some? {
        var g := items[i].value;
        found := true;
        labels := AppendNew(labels, g.labels, Entries(items[..i], Labels));
        classifications := AppendNew(classifications, g.classifications, Entries(items[..i], Classifications));
        notes := AppendNew(notes, g.accessNotes, Entries(items[..i], AccessNotes));
        extra := extra + g.extra;
      }
    }
    assert items[..|items|] == items;
    return if found then Some(Governance(labels, classifications, notes, extra)) else None;
  }

  lemma DistinctAppend<T>(s: seq<T>, x: T)
    ensures Distinct(s + [x]) == if x in s then Distinct(s) else Distinct(s) + [x]
  {
    assert (s + [x])[..|s|] == s;
  }

  lemma {:induction false} DistinctElements<T>(s: seq<T>)
    ensures forall x :: x in Distinct(s) <==> x in s
    ensures NoDuplicates(Distinct(s))
  {
    if s != [] {
      var n := |s| - 1;
      DistinctElements(s[..n]);
      assert forall x :: x in s <==> x in s[..n] || x == s[n];
    }
  }

  /** First-occurrence order: extending the input only ever extends the output at its end. */
  lemma {:induction false} DistinctKeepsFirstOrder<T>(s: seq<T>, t: seq<T>)
    ensures Distinct(s) <= Distinct(s + t)
  {
    if t == [] {
      assert s + t == s;
    } else {
      var n := |t| - 1;
      assert s + t == s + t[..n] + [t[n]];
      DistinctAppend(s + t[..n], t[n]);
      DistinctKeepsFirstOrder(s, t[..n]);
    }
  }

  lemma {:induction false} EntriesConcat(a: seq<Option<Governance>>, b: seq<Option<Governance>>, field: Field)
    ensures Entries(a + b, field) == Entries(a, field) + Entries(b, field)
  {
    if b == [] {
      assert a + b == a;
    } else {
      assert (a + b)[..|a + b| - 1] == a + b[..|b| - 1];
      EntriesConcat(a, b[..|b| - 1], field);
    }
  }

  lemma {:induction false} ExtrasConcat(a: seq<Option<Governance>>, b: seq<Option<Governance>>)
    ensures Extras(a + b) == Extras(a) + Extras(b)
  {
    if b == [] {
      assert a + b == a;
    } else {
      assert (a + b)[..|a + b| - 1] == a + b[..|b| - 1];
      ExtrasConcat(a, b[..|b| - 1]);
    }
  }

  /** Removing repetitions from a part first changes nothing. */
  lemma {:induction false} DistinctOfDistinct<T>(s: seq<T>, t: seq<T>, u: seq<T>)
    ensures Distinct(s + Distinct(t) + u) == Distinct(s + t + u)
  {
    if u != [] {
      var n := |u| - 1;
      assert s + Distinct(t) + u == s + Distinct(t) + u[..n] + [u[n]];
      assert s + t + u == s + t + u[..n] + [u[n]];
      DistinctAppend(s + Distinct(t) + u[..n], u[n]);
      DistinctAppend(s + t + u[..n], u[n]);
      DistinctElements(t);
      DistinctOfDistinct(s, t, u[..n]);
    } else {
      assert s + Distinct(t) + u == s + Distinct(t) && s + t + u == s + t;
      if t != [] {
        var n := |t| - 1;
        DistinctOfDistinct(s, t[..n], []);
        assert s + t[..n] + [] == s + t[..n] && s + Distinct(t[..n]) + [] == s + Distinct(t[..n]);
        assert s + t == s + t[..n] + [t[n]];
        DistinctAppend(s + t[..n], t[n]);
        DistinctElements(t[..n]);
        if t[n] !in t[..n] {
          assert s + Distinct(t) == s + Distinct(t[..n]) + [t[n]];
          DistinctAppend(s + Distinct(t[..n]), t[n]);
        }
      }
    }
  }

  /** A group of items may be merged first and its result put in their place. */
  lemma MergeGroups(a: seq<Option<Governance>>, b: seq<Option<Governance>>, c: seq<Option<Governance>>)
    ensures Merge(a + [Merge(b)] + c) == Merge(a + b + c)
  {
    hide Distinct, Entries;
    var m := Merge(b);
    forall field
      ensures Distinct(Entries(a + [m] + c, field)) == Distinct(Entries(a + b + c, field))
    {
      GroupEntries(a, b, c, field);
    }
    ExtrasConcat(a + [m], c);
    ExtrasConcat(a, [m]);
    ExtrasConcat(a + b, c);
    ExtrasConcat(a, b);
    ExtrasOfNone(b);
    assert [m][..0] == [];
    if item :| item in b && item.Some? {
      assert item in a + b + c && m in a + [m] + c;
    } else {
      assert forall item :: item in a + b + c && item.Some? ==> item in a + [m] + c;
      assert forall item :: item in a + [m] + c && item.Some? ==> item in a + b + c;
    }
  }

  lemma {:induction false} ExtrasOfNone(b: seq<Option<Governance>>)
    ensures Merge(b).None? ==> Extras(b) == map[] && forall field :: Entries(b, field) == []
  {
    if b != [] && Merge(b).None? {
      var n := |b| - 1;
      assert forall item :: item in b[..n] ==> item in b;
      ExtrasOfNone(b[..n]);
      assert b[n] in b;
    }
  }

  lemma GroupEntries(a: seq<Option<Governance>>, b: seq<Option<Governance>>, c: seq<Option<Governance>>, field: Field)
    ensures Distinct(Entries(a + [Merge(b)] + c, field)) == Distinct(Entries(a + b + c, field))
  {
    var m := Merge(b);
    EntriesConcat(a + [m], c, field);
    EntriesConcat(a, [m], field);
    EntriesConcat(a + b, c, field);
    EntriesConcat(a, b, field);
    ExtrasOfNone(b);
    assert [m][..0] == [];
    assert Entries([m], field) == if m.Some? then Distinct(Entries(b, field)) else [];
    DistinctOfDistinct(Entries(a, field), Entries(b, field), Entries(c, field));
  }

  /** Merging is associative. */
  lemma MergeAssociative(a: Option<Governance>, b: Option<Governance>, c: Option<Governance>)
    ensures Merge([Merge([a, b]), c]) == Merge([a, Merge([b, c])])
  {
    hide Merge;
    MergeGroups([], [a, b], [c]);
    MergeGroups([a], [b, c], []);
    assert [] + [Merge([a, b])] + [c] == [Merge([a, b]), c];
    assert [a] + [Merge([b, c])] + [] == [a, Merge([b, c])];
    assert [] + [a, b] + [c] == [a] + [b, c] + [];
  }

  /** The merged lists hold exactly what some item holds, each entry once. */
  lemma MergeIsUnion(items: seq<Option<Governance>>, field: Field, x: string)
    requires Merge(items).Some?
    ensures NoDuplicates(FieldOf(Merge(items).value, field))
    ensures x in FieldOf(Merge(items).value, field) <==> exists g :: Some(g) in items && x in FieldOf(g, field)
  {
    DistinctElements(Entries(items, field));
    EntriesMembers(items, field, x);
  }

  lemma {:induction false} EntriesMembers(items: seq<Option<Governance>>, field: Field, x: string)
    ensures x in Entries(items, field) <==> exists g :: Some(g) in items && x in FieldOf(g, field)
  {
    if items != [] {
      var n := |items| - 1;
      EntriesMembers(items[..n], field, x);
      assert forall item :: item in items <==> item in items[..n] || item == items[n];
      if items[n].Some? && x in FieldOf(items[n].value, field) {
        assert Some(items[n].value) in items;
      }
    }
  }

  lemma {:induction false} ExtraKeys(items: seq<Option<Governance>>, k: string)
    ensures k in Extras(items) <==> exists g :: Some(g) in items && k in g.extra
  {
    if items != [] {
      var n := |items| - 1;
      ExtraKeys(items[..n], k);
      assert forall item :: item in items <==> item in items[..n] || item == items[n];
      if items[n].Some? && k in items[n].value.extra {
        assert Some(items[n].value) in items;
      }
    }
  }

  /** Of several values for one `extra` key the one merged last stays. */
  lemma {:induction false} LastExtraWins(items: seq<Option<Governance>>, i: nat, k: string)
    requires i < |items| && items[i].Some? && k in items[i].value.extra
    requires forall j :: i < j < |items| && items[j].Some? ==> k !in items[j].value.extra
    ensures k in Extras(items) && Extras(items)[k] == items[i].value.extra[k]
    decreases |items|
  {
    var n := |items| - 1;
    if i < n {
      assert forall j :: 0 <= j < n ==> items[..n][j] == items[j];
      LastExtraWins(items[..n], i, k);
      assert items[n].Some? ==> k !in items[n].value.extra;
    }
  }

  /** A single annotated item gives its `extra` values and no others. */
  lemma {:induction false} OnlyExtra(items: seq<Option<Governance>>, i: nat)
    requires i < |items| && forall j :: 0 <= j < |items| && j != i ==> items[j].None?
    ensures Extras(items) == if items[i].Some? then items[i].value.extra else map[]
    decreases |items|
  {
    var n := |items| - 1;
    if i < n {
      OnlyExtra(items[..n], i);
    } else {
      NoExtra(items[..n]);
    }
  }

  lemma {:induction false} NoExtra(items: seq<Option<Governance>>)
    requires forall j :: 0 <= j < |items| ==> items[j].None?
    ensures Extras(items) == map[]
  {
    if items != [] {
      NoExtra(items[..|items| - 1]);
    }
  }

  /** Putting members in front of the bundle that already holds them adds no entry and changes
      no `extra` value: an asset never carries more than its bundle. */
  lemma MembersAgain(items: seq<Option<Governance>>, members: seq<Option<Governance>>, field: Field)
    requires forall m :: m in members && m.Some? ==> m in items
    ensures var bundle := Merge(items); var again := Merge(members + [bundle]);
      if bundle.None? then
        again.None?
      else
        && again.Some?
        && (forall x :: x in FieldOf(again.value, field) <==> x in FieldOf(bundle.value, field))
        && again.value.extra == bundle.value.extra
  {
    hide Distinct, Entries;
    var bundle, all := Merge(items), members + [Merge(items)];
    assert bundle in all;
    if bundle.Some? {
      forall x
        ensures x in FieldOf(Merge(all).value, field) <==> x in FieldOf(bundle.value, field)
      {
        MergeIsUnion(all, field, x);
        MergeIsUnion(items, field, x);
        assert Some(bundle.value) in all;
      }
      ExtrasConcat(members, [bundle]);
      assert [bundle][..0] == [];
      forall k | k in Extras(members)
        ensures k in bundle.value.extra
      {
        ExtraKeys(members, k);
        ExtraKeys(items, k);
      }
    }
  }
}
