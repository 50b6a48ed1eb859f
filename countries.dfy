/**
 * The country selector's data: the service's `{country, slug}` list, sorted
 * by name, with entries of empty name dropped, becomes the spinner's list of
 * names and the name-to-slug map that queries resolve the selection with.
 */
module Countries {

  /** One element of the service's country list. */
  datatype CountryEntry = CountryEntry(country: string, slug: string)

  /**
   * `a <= b` in the order of Kotlin's `String.compareTo`: the first differing
   * character decides, and a proper prefix comes first.
   */
  predicate NameLe(a: string, b: string)
    decreases |a|
  {
    a == [] || (b != [] && (a[0] < b[0] || (a[0] == b[0] && NameLe(a[1..], b[1..]))))
  }

  lemma {:induction false} NameLeTotal(a: string, b: string)
    ensures NameLe(a, b) || NameLe(b, a)
    decreases |a|
  {
    if a != [] && b != [] && a[0] == b[0] {
      NameLeTotal(a[1..], b[1..]);
    }
  }

  lemma {:induction false} NameLeTransitive(a: string, b: string, c: string)
    requires NameLe(a, b) && NameLe(b, c)
    ensures NameLe(a, c)
    decreases |a|
  {
    if a != [] && a[0] == b[0] && b[0] == c[0] {
      NameLeTransitive(a[1..], b[1..], c[1..]);
    }
  }

  predicate SortedNames(s: seq<string>) {
    forall i, j :: 0 <= i < j < |s| ==> NameLe(s[i], s[j])
  }

  predicate SortedByName(s: seq<CountryEntry>) {
    forall i, j :: 0 <= i < j < |s| ==> NameLe(s[i].country, s[j].country)
  }

  /** Puts `e` ahead of the first entry whose name is not smaller, so that equal names keep their order. */
  function InsertByName(e: CountryEntry, s: seq<CountryEntry>): (r: seq<CountryEntry>)
    ensures multiset(r) == multiset(s) + multiset{e}
  {
    if s == [] then [e]
    else if NameLe(e.country, s[0].country) then [e] + s
    else
      assert s == [s[0]] + s[1..];
      [s[0]] + InsertByName(e, s[1..])
  }

  /** `countryList.sortedBy { it.country }`: a stable sort by name. */
  function SortByName(s: seq<CountryEntry>): (r: seq<CountryEntry>)
    ensures multiset(r) == multiset(s)
  {
    if s == [] then []
    else
      assert s == [s[0]] + s[1..];
      InsertByName(s[0], SortByName(s[1..]))
  }

  /** An entry no greater than every entry of a sorted list can lead it. */
  lemma SortedCons(x: CountryEntry, r: seq<CountryEntry>)
    requires SortedByName(r)
    requires forall k :: 0 <= k < |r| ==> NameLe(x.country, r[k].country)
    ensures SortedByName([x] + r)
  {
    var full := [x] + r;
    forall i, j | 0 <= i < j < |full|
      ensures NameLe(full[i].country, full[j].country)
    {
      if i > 0 {
        assert full[i] == r[i - 1] && full[j] == r[j - 1];
      } else {
        assert full[j] == r[j - 1];
      }
    }
  }

  lemma {:induction false} InsertSorted(e: CountryEntry, s: seq<CountryEntry>)
    requires SortedByName(s)
    ensures SortedByName(InsertByName(e, s))
  {
    if s == [] {
    } else if NameLe(e.country, s[0].country) {
      forall k | 0 <= k < |s|
        ensures NameLe(e.country, s[k].country)
      {
        if k > 0 {
          NameLeTransitive(e.country, s[0].country, s[k].country);
        }
      }
      SortedCons(e, s);
    } else {
      var t := s[1..];
      assert SortedByName(t);
      InsertSorted(e, t);
      NameLeTotal(e.country, s[0].country);
      var r := InsertByName(e, t);
      forall k | 0 <= k < |r|
        ensures NameLe(s[0].country, r[k].country)
      {
        InsertMembers(e, t, r[k]);
        if r[k] != e {
          var m :| 0 <= m < |t| && t[m] == r[k];
          assert s[m + 1] == r[k];
        }
      }
      SortedCons(s[0], r);
    }
  }

  /** The entries of `InsertByName(e, s)` are `e` and those of `s`. */
  lemma {:induction false} InsertMembers(e: CountryEntry, s: seq<CountryEntry>, x: CountryEntry)
    ensures x in InsertByName(e, s) <==> x == e || x in s
  {
    if s != [] && !NameLe(e.country, s[0].country) {
      InsertMembers(e, s[1..], x);
      assert s == [s[0]] + s[1..];
    }
  }

  /** The sorted list really is sorted by name. */
  lemma {:induction false} SortByNameSorted(s: seq<CountryEntry>)
    ensures SortedByName(SortByName(s))
  {
    if s != [] {
      SortByNameSorted(s[1..]);
      InsertSorted(s[0], SortByName(s[1..]));
    }
  }

  lemma {:induction false} NameLeReflexive(a: string)
    ensures NameLe(a, a)
    decreases |a|
  {
    if a != [] {
      NameLeReflexive(a[1..]);
    }
  }

  /** The entries of `s` named `x`, in their order in `s`. */
  function Named(s: seq<CountryEntry>, x: string): seq<CountryEntry>
    decreases |s|
  {
    if s == [] then []
    else if s[0].country == x then [s[0]] + Named(s[1..], x)
    else Named(s[1..], x)
  }

  lemma {:induction false} NamedAppend(a: seq<CountryEntry>, b: seq<CountryEntry>, x: string)
    ensures Named(a + b, x) == Named(a, x) + Named(b, x)
    decreases |a|
  {
    if a == [] {
      assert a + b == b;
    } else {
      assert (a + b)[1..] == a[1..] + b;
      NamedAppend(a[1..], b, x);
    }
  }

  lemma {:induction false} NamedNone(s: seq<CountryEntry>, x: string)
    requires forall j :: 0 <= j < |s| ==> s[j].country != x
    ensures Named(s, x) == []
    decreases |s|
  {
    if s != [] {
      NamedNone(s[1..], x);
    }
  }

  /**
   * Inserting `e` puts it ahead of every entry of the same name, since the
   * insertion point is the first entry whose name is not smaller.
   */
  lemma {:induction false} InsertNamed(e: CountryEntry, s: seq<CountryEntry>)
    ensures Named(InsertByName(e, s), e.country) == [e] + Named(s, e.country)
    decreases |s|
  {
    var x := e.country;
    if s == [] {
      assert InsertByName(e, s) == [e] && [e][1..] == [];
    } else if NameLe(x, s[0].country) {
      var r := [e] + s;
      assert InsertByName(e, s) == r && r[1..] == s;
    } else {
      NameLeReflexive(x);
      var t := InsertByName(e, s[1..]);
      var r := [s[0]] + t;
      assert InsertByName(e, s) == r && r[1..] == t;
      InsertNamed(e, s[1..]);
    }
  }

  /** Inserting an entry of another name leaves the entries named `x` as they were. */
  lemma {:induction false} InsertOtherName(e: CountryEntry, s: seq<CountryEntry>, x: string)
    requires e.country != x
    ensures Named(InsertByName(e, s), x) == Named(s, x)
    decreases |s|
  {
    if s == [] {
      assert InsertByName(e, s) == [e] && [e][1..] == [];
    } else if NameLe(e.country, s[0].country) {
      var r := [e] + s;
      assert InsertByName(e, s) == r && r[1..] == s;
    } else {
      var t := InsertByName(e, s[1..]);
      var r := [s[0]] + t;
      assert InsertByName(e, s) == r && r[1..] == t;
      InsertOtherName(e, s[1..], x);
    }
  }

  /** The sort is stable: the entries of any one name keep their relative order. */
  lemma {:induction false} SortStable(s: seq<CountryEntry>, x: string)
    ensures Named(SortByName(s), x) == Named(s, x)
    decreases |s|
  {
    if s != [] {
      SortStable(s[1..], x);
      if s[0].country == x {
        InsertNamed(s[0], SortByName(s[1..]));
      } else {
        InsertOtherName(s[0], SortByName(s[1..]), x);
      }
    }
  }

  /** The names the loop adds to the spinner's adapter, in order: those of the entries with a non-empty name. */
  function AdapterNames(s: seq<CountryEntry>): (r: seq<string>)
    ensures forall i :: 0 <= i < |r| ==> r[i] != ""
    ensures forall x :: x in r <==> x != "" && exists e :: e in s && e.country == x
  {
    if s == [] then []
    else
      var last := s[|s| - 1];
      assert s == s[..|s| - 1] + [last];
      AdapterNames(s[..|s| - 1]) + (if last.country != "" then [last.country] else [])
  }

  /** One step of the loop on the map: a non-empty name is bound to its slug, an empty one changes nothing. */
  function Put(m: map<string, string>, e: CountryEntry): (r: map<string, string>)
    ensures forall k :: k in r <==> k in m || (k == e.country && e.country != "")
  {
    if e.country != "" then m[e.country := e.slug] else m
  }

  /** The map after the loop has run over `s`, starting from `m`. */
  function Bind(m: map<string, string>, s: seq<CountryEntry>): map<string, string> {
    if s == [] then m else Put(Bind(m, s[..|s| - 1]), s[|s| - 1])
  }

  /** One more step of the loop: the entry at `i` is added to the spinner and the map, or skipped. */
  lemma WalkStep(m: map<string, string>, s: seq<CountryEntry>, i: nat)
    requires i < |s|
    ensures AdapterNames(s[..i + 1]) == AdapterNames(s[..i]) + (if s[i].country != "" then [s[i].country] else [])
    ensures Bind(m, s[..i + 1]) == Put(Bind(m, s[..i]), s[i])
  {
    assert s[..i + 1][..i] == s[..i];
  }

  /** The spinner holds only non-empty names, and the map's keys are exactly the spinner's entries. */
  ghost predicate Consistent(names: seq<string>, slugOf: map<string, string>) {
    && (forall i :: 0 <= i < |names| ==> names[i] != "")
    && (forall x :: x in slugOf <==> x in names)
  }

  /** Walking any list keeps the spinner and the map consistent. */
  lemma WalkKeepsConsistent(names: seq<string>, slugOf: map<string, string>, s: seq<CountryEntry>)
    requires Consistent(names, slugOf)
    ensures Consistent(names + AdapterNames(s), Bind(slugOf, s))
  {
    BindKeys(slugOf, s);
    var added := AdapterNames(s);
    assert forall x :: x in names + added <==> x in names || x in added;
  }

  /**
   * What one country-list callback leaves behind: consistent tables again
   * and, when the spinner started out empty, sorted entries.
   */
  lemma AfterCallback(names: seq<string>, slugOf: map<string, string>, list: seq<CountryEntry>)
    requires Consistent(names, slugOf)
    ensures Consistent(names + AdapterNames(SortByName(list)), Bind(slugOf, SortByName(list)))
    ensures names == [] ==> SortedNames(names + AdapterNames(SortByName(list)))
  {
    var sorted := SortByName(list);
    WalkKeepsConsistent(names, slugOf, sorted);
    if names == [] {
      SortByNameSorted(list);
      AdapterNamesSorted(sorted);
      assert names + AdapterNames(sorted) == AdapterNames(sorted);
    }
  }

  /** A sorted list gives a sorted adapter. */
  lemma {:induction false} AdapterNamesSorted(s: seq<CountryEntry>)
    requires SortedByName(s)
    ensures SortedNames(AdapterNames(s))
  {
    if s != [] {
      var init, last := s[..|s| - 1], s[|s| - 1];
      assert SortedByName(init);
      AdapterNamesSorted(init);
      var a := AdapterNames(init);
      if last.country != "" {
        forall i | 0 <= i < |a|
          ensures NameLe(a[i], last.country)
        {
          assert a[i] in a;
          var e :| e in init && e.country == a[i];
          var m :| 0 <= m < |init| && init[m] == e;
          assert s[m] == e;
        }
      }
    }
  }

  /** The map's keys are the names it started with and the non-empty names of the list. */
  lemma {:induction false} BindKeys(m: map<string, string>, s: seq<CountryEntry>)
    ensures forall x :: x in Bind(m, s) <==> x in m || (x != "" && exists e :: e in s && e.country == x)
  {
    if s != [] {
      var init, last := s[..|s| - 1], s[|s| - 1];
      BindKeys(m, init);
      assert s == init + [last];
    }
  }

  /** `s[k]` has a non-empty name that no later entry of `s` carries. */
  predicate IsLastOfName(s: seq<CountryEntry>, k: int) {
    0 <= k < |s| && s[k].country != "" && forall j :: k < j < |s| ==> s[j].country != s[k].country
  }

  /** A non-empty name is bound to the slug of the last entry that carries it. */
  lemma {:induction false} BindLastWins(m: map<string, string>, s: seq<CountryEntry>, k: int)
    requires IsLastOfName(s, k)
    ensures s[k].country in Bind(m, s) && Bind(m, s)[s[k].country] == s[k].slug
  {
    var init := s[..|s| - 1];
    if k < |s| - 1 {
      BindLastWins(m, init, k);
    }
  }

  /** A name the list does not carry keeps its old binding. */
  lemma {:induction false} BindKeepsOthers(m: map<string, string>, s: seq<CountryEntry>, x: string)
    requires x in m
    requires forall i :: 0 <= i < |s| ==> s[i].country != x
    ensures x in Bind(m, s) && Bind(m, s)[x] == m[x]
  {
    if s != [] {
      BindKeepsOthers(m, s[..|s| - 1], x);
    }
  }

  /** The last entry of a name is the last of the entries of that name. */
  lemma NamedLastOfName(s: seq<CountryEntry>, k: int)
    requires IsLastOfName(s, k)
    ensures var n := Named(s, s[k].country); n != [] && n[|n| - 1] == s[k]
  {
    var x := s[k].country;
    assert s == s[..k] + [s[k]] + s[k + 1..];
    NamedAppend(s[..k] + [s[k]], s[k + 1..], x);
    NamedAppend(s[..k], [s[k]], x);
    NamedNone(s[k + 1..], x);
    assert [s[k]][1..] == [];
  }

  /** A non-empty name that the list carries is bound to the slug of the last of its entries. */
  lemma {:induction false} BindNamed(m: map<string, string>, s: seq<CountryEntry>, x: string)
    requires x != "" && Named(s, x) != []
    ensures var n := Named(s, x); x in Bind(m, s) && Bind(m, s)[x] == n[|n| - 1].slug
  {
    var init, last := s[..|s| - 1], s[|s| - 1];
    assert s == init + [last];
    NamedAppend(init, [last], x);
    assert [last][1..] == [];
    if last.country != x {
      BindNamed(m, init, x);
    }
  }

  /** Running the loop over `a + b` is running it over `a`, then over `b`. */
  lemma {:induction false} AdapterNamesAppend(a: seq<CountryEntry>, b: seq<CountryEntry>)
    ensures AdapterNames(a + b) == AdapterNames(a) + AdapterNames(b)
  {
    if b != [] {
      var binit := b[..|b| - 1];
      assert (a + b)[..|a + b| - 1] == a + binit;
      AdapterNamesAppend(a, binit);
    } else {
      assert a + b == a;
    }
  }

  lemma {:induction false} BindAppend(m: map<string, string>, a: seq<CountryEntry>, b: seq<CountryEntry>)
    ensures Bind(m, a + b) == Bind(Bind(m, a), b)
  {
    if b != [] {
      var binit := b[..|b| - 1];
      assert (a + b)[..|a + b| - 1] == a + binit;
      BindAppend(m, a, binit);
    } else {
      assert a + b == a;
    }
  }

  /** An entry with an empty name, wherever it stands, changes neither the adapter nor the map. */
  lemma EmptyNameIgnored(m: map<string, string>, a: seq<CountryEntry>, e: CountryEntry, b: seq<CountryEntry>)
    requires e.country == ""
    ensures AdapterNames(a + [e] + b) == AdapterNames(a + b)
    ensures Bind(m, a + [e] + b) == Bind(m, a + b)
  {
    AdapterNamesAppend(a + [e], b);
    AdapterNamesAppend(a, [e]);
    AdapterNamesAppend(a, b);
    assert AdapterNames([e]) == AdapterNames([]) + [];
    BindAppend(m, a + [e], b);
    BindAppend(m, a, [e]);
    BindAppend(m, a, b);
  }

  /**
   * What country initialisation leaves behind for a fetched list: an adapter
   * of non-empty names in sorted order, holding every non-empty name of the
   * list, and a map whose keys are exactly those names, each bound to the
   * slug of the last entry of that name in the fetched list (the sort is
   * stable, so sorting does not change which entry of a name comes last).
   */
  lemma CountryTables(list: seq<CountryEntry>)
    ensures var sorted := SortByName(list);
      var names := AdapterNames(sorted);
      var slugOf := Bind(map[], sorted);
      && SortedNames(names)
      && (forall i :: 0 <= i < |names| ==> names[i] != "")
      && (forall x :: x in names <==> x != "" && exists e :: e in list && e.country == x)
      && (forall x :: x in slugOf <==> x in names)
      && (forall k :: IsLastOfName(list, k) ==>
            list[k].country in slugOf && slugOf[list[k].country] == list[k].slug)
  {
    var sorted := SortByName(list);
    SortByNameSorted(list);
    AdapterNamesSorted(sorted);
    BindKeys(map[], sorted);
    forall e | e in sorted
      ensures e in list
    {
      assert e in multiset(sorted);
    }
    forall e | e in list
      ensures e in sorted
    {
      assert e in multiset(list);
    }
    forall k | IsLastOfName(list, k)
      ensures list[k].country in Bind(map[], sorted) && Bind(map[], sorted)[list[k].country] == list[k].slug
    {
      var x := list[k].country;
      NamedLastOfName(list, k);
      SortStable(list, x);
      BindNamed(map[], sorted, x);
    }
  }
}
