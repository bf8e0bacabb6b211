/**
 Selection and aliases (knock/domain/selection.py, knock/domain/aliases.py,
 knock/domain/expand.py). The include and exclude patterns, the version pattern and the
 filling of one template for one tag are parameters.
 */
module Aliases {
  import opened Wrappers
  import opened Sorting
  import opened Semver
  import Reconcile

  /** Fill a template for a tag; nothing when a placeholder cannot be filled. */
  type Renderer = (string, string) -> Option<string>

  // ---- dictionaries in insertion order ------------------------------------------------------------------------

  function Lookup<V>(d: seq<(string, V)>, k: string): Option<V> {
    if d == [] then None else if d[0].0 == k then Some(d[0].1) else Lookup(d[1..], k)
  }

  /** Assigning to a key keeps its place; a new key goes last. */
  function Store<V>(d: seq<(string, V)>, k: string, v: V): (r: seq<(string, V)>) {
    if d == [] then [(k, v)]
    else if d[0].0 == k then [(k, v)] + d[1..]
    else [d[0]] + Store(d[1..], k, v)
  }

  ghost predicate DistinctKeys<V>(d: seq<(string, V)>) {
    forall i, j | 0 <= i < j < |d| :: d[i].0 != d[j].0
  }

  lemma {:induction false} StoreLooksUp<V>(d: seq<(string, V)>, k: string, v: V, j: string)
    ensures Lookup(Store(d, k, v), j) == if j == k then Some(v) else Lookup(d, j)
  {
    if d != [] && d[0].0 != k {
      StoreLooksUp(d[1..], k, v, j);
      assert Store(d, k, v)[1..] == Store(d[1..], k, v);
    }
  }

  lemma {:induction false} StoreDistinct<V>(d: seq<(string, V)>, k: string, v: V)
    requires DistinctKeys(d)
    ensures DistinctKeys(Store(d, k, v))
    ensures forall p | p in Store(d, k, v) :: p == (k, v) || p in d
  {
    if d != [] {
      assert d == [d[0]] + d[1..];
      StoreDistinct(d[1..], k, v);
      var rest := Store(d[1..], k, v);
      forall i | 0 <= i < |rest| ensures d[0].0 != k ==> rest[i].0 != d[0].0 {
        assert rest[i] in rest;
        if rest[i] in d[1..] {
          var j :| 0 <= j < |d[1..]| && d[1..][j] == rest[i];
          assert d[j + 1] == rest[i];
        }
      }
    }
  }

  lemma {:induction false} LookupMember<V>(d: seq<(string, V)>, p: (string, V))
    requires DistinctKeys(d) && p in d
    ensures Lookup(d, p.0) == Some(p.1)
  {
    assert d == [d[0]] + d[1..];
    if p != d[0] {
      LookupMember(d[1..], p);
    }
  }

  lemma {:induction false} LookupFound<V>(d: seq<(string, V)>, k: string)
    requires Lookup(d, k).Some?
    ensures (k, Lookup(d, k).value) in d
  {
    if d[0].0 != k {
      LookupFound(d[1..], k);
    } else {
      assert d[0] == (k, Lookup(d, k).value);
    }
  }

  // ---- the highest of a group -----------------------------------------------------------------------------------

  function MaxString(tags: seq<string>): (m: string)
    requires tags != []
    ensures m in tags
  {
    if |tags| == 1 then tags[0]
    else
      var m := MaxString(tags[..|tags| - 1]);
      var last := tags[|tags| - 1];
      if StrLe(last, m) then m else last
  }

  lemma {:induction false} MaxStringIsMax(tags: seq<string>)
    requires tags != []
    ensures forall t | t in tags :: StrLe(t, MaxString(tags))
  {
    StrLeOrder();
    var n := |tags| - 1;
    assert tags == tags[..n] + [tags[n]];
    if n > 0 {
      MaxStringIsMax(tags[..n]);
    }
  }

  function Highest(parse: Parser, tags: seq<string>): string
    requires tags != []
  {
    var sorted := SortSemver(parse, tags, true);
    if sorted != [] && parse(sorted[0]).Some? then sorted[0] else MaxString(tags)
  }

  /** A version that does not rank above another: field by field, and a pre-release never above its final version. */
  ghost predicate NotAbove(x: Version, top: Version) {
    && x.major <= top.major
    && (x.major == top.major ==> x.minor <= top.minor)
    && (x.major == top.major && x.minor == top.minor ==> x.patch <= top.patch)
    && (x.major == top.major && x.minor == top.minor && x.patch == top.patch && top.prerelease != "" ==>
          x.prerelease != "" && forall k: nat :: !SmallerAt(top.prerelease, x.prerelease, k))
  }

  ghost predicate FirstOfItsVersion(parse: Parser, tags: seq<string>, t: string) {
    exists k :: 0 <= k < |tags| && tags[k] == t && forall i | 0 <= i < k :: parse(tags[i]) != parse(t)
  }

  /**
   The first tag of the group's top version; if the group has no version, the tag no other
   follows in code-point order.
   */
  ghost predicate IsHighest(parse: Parser, tags: seq<string>, t: string) {
    && t in tags
    && (forall u | u in tags && parse(u).Some? :: parse(t).Some? && NotAbove(parse(u).value, parse(t).value))
    && (if parse(t).Some? then FirstOfItsVersion(parse, tags, t)
        else forall u, k: nat | u in tags :: !SmallerAt(t, u, k))
  }

  lemma HighestIsHighest(parse: Parser, tags: seq<string>)
    requires tags != []
    ensures IsHighest(parse, tags, Highest(parse, tags))
  {
    hide SortSemver, SmallerAt, NotAbove, FirstOfItsVersion;
    var sorted := SortSemver(parse, tags, true);
    SortSemverSorts(parse, tags, true);
    SortedByFields(parse, sorted, true);
    SameElements(sorted, tags);
    var top := sorted[0];
    assert top in tags;
    forall u | u in tags && parse(u).Some?
      ensures parse(top).Some? && NotAbove(parse(u).value, parse(top).value)
    {
      var i :| 0 <= i < |sorted| && sorted[i] == u;
      assert OrderedByFields(parse, sorted, true);
      assert parse(top).Some?;
      LeadingIsNotBelow(parse(u).value, parse(top).value, i);
    }
    if parse(top).Some? {
      FirstInFront(parse, tags);
    } else {
      MaxStringIsMax(tags);
      forall u, k: nat | u in tags ensures !SmallerAt(MaxString(tags), u, k) {
        NotSmaller(MaxString(tags), u, k);
      }
    }
  }

  lemma LeadingIsNotBelow(x: Version, top: Version, i: nat)
    requires Leads(top, x, i, 0)
    ensures NotAbove(x, top)
  {
  }

  lemma NotSmaller(a: string, b: string, k: nat)
    requires StrLe(b, a)
    ensures !SmallerAt(a, b, k)
  {
    StrLeIff(a, b);
    StrLeTotal(a, b);
    NotSmallerThanItself(a);
  }

  lemma FirstInFront(parse: Parser, tags: seq<string>)
    requires tags != []
    ensures var sorted := SortSemver(parse, tags, true);
            sorted != [] && FirstOfItsVersion(parse, tags, sorted[0])
  {
    hide SortSemver;
    var sorted := SortSemver(parse, tags, true);
    SortSemverSorts(parse, tags, true);
    SameElements(sorted, tags);
    var version := parse(sorted[0]);
    var same := (v: string) => parse(v) == version;
    SortSemverIsStable(parse, tags, true, version);
    assert Only(sorted, same)[0] == sorted[0];
    var k := FirstKept(tags, same);
    assert tags[k] == sorted[0];
  }

  lemma {:induction false} FirstKept(values: seq<string>, keep: string -> bool) returns (k: nat)
    requires Only(values, keep) != []
    ensures k < |values| && values[k] == Only(values, keep)[0] && keep(values[k])
    ensures forall i | 0 <= i < k :: !keep(values[i])
  {
    if keep(values[0]) {
      k := 0;
    } else {
      k := FirstKept(values[1..], keep);
      k := k + 1;
    }
  }

  // ---- groups of one template --------------------------------------------------------------------------------------

  const LATEST := "latest"

  function Members(render: Renderer, template: string, tags: seq<string>, name: string): (r: seq<string>)
    ensures forall t | t in r :: t in tags
  {
    if template == LATEST then (if name == LATEST then tags else [])
    else if tags == [] then []
    else
      var n := |tags| - 1;
      Members(render, template, tags[..n], name) + if render(template, tags[n]) == Some(name) then [tags[n]] else []
  }

  /** The literal template `latest` takes every tag. */
  predicate Renders(render: Renderer, template: string, name: string, tag: string) {
    if template == "latest" then name == "latest" else render(template, tag) == Some(name)
  }

  function Rendering(render: Renderer, template: string, name: string): string -> bool {
    (t: string) => Renders(render, template, name, t)
  }

  /** A group is, in order, the tags that render to its name. */
  lemma {:induction false} MembersRender(render: Renderer, template: string, tags: seq<string>, name: string)
    ensures Members(render, template, tags, name) == Only(tags, Rendering(render, template, name))
  {
    var keep := Rendering(render, template, name);
    if tags != [] {
      var n := |tags| - 1;
      assert tags == tags[..n] + [tags[n]];
      MembersRender(render, template, tags[..n], name);
      OnlyConcat(tags[..n], [tags[n]], keep);
    }
  }

  function AddMember(groups: seq<(string, seq<string>)>, name: string, tag: string): seq<(string, seq<string>)> {
    var old_ := Lookup(groups, name);
    Store(groups, name, (if old_.Some? then old_.value else []) + [tag])
  }

  function Groups(render: Renderer, template: string, tags: seq<string>): seq<(string, seq<string>)> {
    if template == LATEST then (if tags == [] then [] else [(LATEST, tags)])
    else if tags == [] then []
    else
      var n := |tags| - 1;
      var before := Groups(render, template, tags[..n]);
      var name := render(template, tags[n]);
      if name.None? then before else AddMember(before, name.value, tags[n])
  }

  /** A group holds, in order, the tags that render to its name, and there is one per name. */
  lemma {:induction false} GroupsAreMembers(render: Renderer, template: string, tags: seq<string>, name: string)
    ensures var m := Members(render, template, tags, name);
            Lookup(Groups(render, template, tags), name) == if m == [] then None else Some(m)
    ensures DistinctKeys(Groups(render, template, tags))
  {
    if template != LATEST && tags != [] {
      var n := |tags| - 1;
      var before := Groups(render, template, tags[..n]);
      var mine := Members(render, template, tags[..n], name);
      var key := render(template, tags[n]);
      GroupsAreMembers(render, template, tags[..n], name);
      assert mine + [] == mine;
      if key.Some? {
        GroupsAreMembers(render, template, tags[..n], key.value);
        var more := Members(render, template, tags[..n], key.value) + [tags[n]];
        assert Groups(render, template, tags) == Store(before, key.value, more) by {
          assert [] + [tags[n]] == [tags[n]];
        }
        StoreLooksUp(before, key.value, more, name);
        StoreDistinct(before, key.value, more);
        assert key.value == name ==> Members(render, template, tags, name) == more;
        assert key.value != name ==> Members(render, template, tags, name) == mine;
      }
    }
  }

  // ---- all templates ------------------------------------------------------------------------------------------------

  function HeadsInto(parse: Parser, aliases: seq<(string, string)>, groups: seq<(string, seq<string>)>): seq<(string,
                     string)> {
    if groups == [] then aliases
    else
      var n := |groups| - 1;
      var before := HeadsInto(parse, aliases, groups[..n]);
      if groups[n].1 == [] then before else Store(before, groups[n].0, Highest(parse, groups[n].1))
  }

  function Resolve(parse: Parser, render: Renderer, templates: seq<string>, tags: seq<string>): seq<(string, string)> {
    if templates == [] then []
    else
      var n := |templates| - 1;
      HeadsInto(parse, Resolve(parse, render, templates[..n], tags), Groups(render, templates[n], tags))
  }

  method ResolveAliases(parse: Parser, render: Renderer, templates: seq<string>, tags: seq<string>)
    returns (aliases: seq<(string, string)>)
    ensures aliases == Resolve(parse, render, templates, tags)
  {
    aliases := [];
    for i := 0 to |templates|
      invariant aliases == Resolve(parse, render, templates[..i], tags)
    {
      var template := templates[i];
      assert templates[..i + 1][..i] == templates[..i];
      var groups: seq<(string, seq<string>)> := [];
      if template == LATEST {
        if tags != [] {
          groups := [(LATEST, tags)];
        }
      } else {
        for j := 0 to |tags|
          invariant groups == Groups(render, template, tags[..j])
        {
          assert tags[..j + 1][..j] == tags[..j];
          var rendered := render(template, tags[j]);
          if rendered.Some? {
            groups := AddMember(groups, rendered.value, tags[j]);
          }
        }
        assert tags[..|tags|] == tags;
      }
      ghost var before := aliases;
      for j := 0 to |groups|
        invariant aliases == HeadsInto(parse, before, groups[..j])
      {
        assert groups[..j + 1][..j] == groups[..j];
        if groups[j].1 != [] {
          aliases := Store(aliases, groups[j].0, Highest(parse, groups[j].1));
        }
      }
      assert groups[..|groups|] == groups;
    }
    assert templates[..|templates|] == templates;
  }

  lemma {:induction false} HeadsLookUp(parse: Parser, aliases: seq<(string, string)>,
                                       groups: seq<(string, seq<string>)>, name: string)
    requires DistinctKeys(groups) && DistinctKeys(aliases)
    ensures var g := Lookup(groups, name);
            Lookup(HeadsInto(parse, aliases, groups), name)
            == if g.Some? && g.value != [] then Some(Highest(parse, g.value)) else Lookup(aliases, name)
    ensures DistinctKeys(HeadsInto(parse, aliases, groups))
  {
    hide Highest;
    if groups != [] {
      var n := |groups| - 1;
      HeadsLookUp(parse, aliases, groups[..n], name);
      LookupAppend(groups[..n], groups[n], name);
      assert groups == groups[..n] + [groups[n]];
      if groups[n].1 != [] {
        var before := HeadsInto(parse, aliases, groups[..n]);
        StoreLooksUp(before, groups[n].0, Highest(parse, groups[n].1), name);
        StoreDistinct(before, groups[n].0, Highest(parse, groups[n].1));
      }
    }
  }

  lemma {:induction false} LookupAppend(d: seq<(string, seq<string>)>, p: (string, seq<string>), name: string)
    requires DistinctKeys(d + [p])
    ensures Lookup(d + [p], name) == if p.0 == name then Some(p.1) else Lookup(d, name)
    ensures p.0 == name ==> Lookup(d, name).None?
  {
    var all := d + [p];
    if d == [] {
      assert all[1..] == [];
    } else {
      assert all[1..] == d[1..] + [p] && all[0] == d[0] && all[|d|] == p;
      assert DistinctKeys(d[1..] + [p]);
      LookupAppend(d[1..], p, name);
    }
  }

  ghost predicate Produces(render: Renderer, template: string, tags: seq<string>, name: string) {
    exists t :: t in tags && Renders(render, template, name, t)
  }

  lemma ProducesIff(render: Renderer, template: string, tags: seq<string>, name: string)
    ensures Produces(render, template, tags, name) <==> Members(render, template, tags, name) != []
  {
    var m := Only(tags, Rendering(render, template, name));
    MembersRender(render, template, tags, name);
    assert m != [] ==> m[0] in m;
    assert forall t :: t in m <==> t in tags && Renders(render, template, name, t);
  }

  lemma {:induction false} AliasNamesDistinct(parse: Parser, render: Renderer, templates: seq<string>,
                                              tags: seq<string>)
    ensures DistinctKeys(Resolve(parse, render, templates, tags))
  {
    if templates != [] {
      AliasNamesDistinct(parse, render, templates[..|templates| - 1], tags);
      LastTemplate(parse, render, templates, tags, "");
    }
  }

  ghost predicate SomeProduces(render: Renderer, templates: seq<string>, tags: seq<string>, name: string) {
    exists i :: 0 <= i < |templates| && Produces(render, templates[i], tags, name)
  }

  lemma SomeProducesStep(render: Renderer, templates: seq<string>, tags: seq<string>, name: string)
    requires templates != []
    ensures var n := |templates| - 1;
            SomeProduces(render, templates, tags, name) <==>
              Produces(render, templates[n], tags, name) || SomeProduces(render, templates[..n], tags, name)
  {
    hide Produces;
    var n := |templates| - 1;
    if SomeProduces(render, templates[..n], tags, name) {
      var i :| 0 <= i < n && Produces(render, templates[..n][i], tags, name);
      assert templates[..n][i] == templates[i];
    }
    if SomeProduces(render, templates, tags, name) {
      var i :| 0 <= i <= n && Produces(render, templates[i], tags, name);
      assert i < n ==> templates[..n][i] == templates[i];
    }
  }

  /** The names resolved are those some template produces, and no other. */
  lemma {:induction false} ResolvedIff(parse: Parser, render: Renderer, templates: seq<string>, tags: seq<string>,
                                       name: string)
    ensures Lookup(Resolve(parse, render, templates, tags), name).Some? <==> SomeProduces(render, templates, tags, name)
  {
    if templates != [] {
      hide IsHighest, Produces, Resolve, Lookup, SomeProduces;
      ResolvedIff(parse, render, templates[..|templates| - 1], tags, name);
      AliasNamesDistinct(parse, render, templates[..|templates| - 1], tags);
      LastTemplate(parse, render, templates, tags, name);
      SomeProducesStep(render, templates, tags, name);
    }
  }

  /** Each resolves to the highest tag of its group under the last template that produces it. */
  lemma {:induction false} AliasesAreHighest(parse: Parser, render: Renderer, templates: seq<string>,
                                             tags: seq<string>, name: string, k: nat)
    requires k < |templates| && Produces(render, templates[k], tags, name)
    requires forall j | k < j < |templates| :: !Produces(render, templates[j], tags, name)
    ensures var target := Lookup(Resolve(parse, render, templates, tags), name);
            target.Some? && target.value in tags &&
                IsHighest(parse, Only(tags, Rendering(render, templates[k], name)), target.value)
  {
    hide IsHighest, Produces, Resolve, Lookup;
    var n := |templates| - 1;
    AliasNamesDistinct(parse, render, templates[..n], tags);
    LastTemplate(parse, render, templates, tags, name);
    if k < n {
      AliasesAreHighest(parse, render, templates[..n], tags, name, k);
    }
  }

  /** The last template overrides the others where it produces the name, and nowhere else. */
  lemma LastTemplate(parse: Parser, render: Renderer, templates: seq<string>, tags: seq<string>, name: string)
    requires templates != [] && DistinctKeys(Resolve(parse, render, templates[..|templates| - 1], tags))
    ensures var n := |templates| - 1;
            var m := Only(tags, Rendering(render, templates[n], name));
            var target := Lookup(Resolve(parse, render, templates, tags), name);
            && DistinctKeys(Resolve(parse, render, templates, tags))
            && (if Produces(render, templates[n], tags, name)
                then target.Some? && target.value in tags && IsHighest(parse, m, target.value)
                else target == Lookup(Resolve(parse, render, templates[..n], tags), name))
  {
    hide IsHighest, Highest, Produces;
    var n := |templates| - 1;
    var m := Members(render, templates[n], tags, name);
    MembersRender(render, templates[n], tags, name);
    ProducesIff(render, templates[n], tags, name);
    GroupsAreMembers(render, templates[n], tags, name);
    HeadsLookUp(parse, Resolve(parse, render, templates[..n], tags), Groups(render, templates[n], tags), name);
    if m != [] {
      HighestIsHighest(parse, m);
      HighestMember(parse, m);
    }
  }

  lemma HighestMember(parse: Parser, tags: seq<string>)
    requires tags != []
    ensures Highest(parse, tags) in tags
  {
    HighestIsHighest(parse, tags);
  }

  // ---- selection ----------------------------------------------------------------------------------------------------

  datatype Selection = Selection(
    includes: Option<string -> bool>,
    excludes: seq<string -> bool>,
    semverOnly: bool,
    names: seq<string>)

  predicate Excluded(s: Selection, tag: string) { exists i | 0 <= i < |s.excludes| :: s.excludes[i](tag) }

  /** Filtered in by the patterns, or named outright and present upstream. */
  predicate IsSelected(parse: Parser, s: Selection, source: seq<string>, tag: string) {
    && tag in source
    && (|| tag in s.names
        || ((s.includes.Some? ==> s.includes.value(tag)) && !Excluded(s, tag) && (s.semverOnly ==> parse(tag).Some?)))
  }

  /** Some listing of a set without repetition; which one is not specified. */
  method ListSet(s: set<string>) returns (l: seq<string>)
    ensures NoDup(l) && Elements(l) == s
  {
    l := [];
    var todo := s;
    while todo != {}
      invariant todo <= s && NoDup(l) && Elements(l) == s - todo
      decreases |todo|
    {
      var x :| x in todo;
      ghost var before := l;
      l := l + [x];
      assert Elements(l) == Elements(before) + {x};
      todo := todo - {x};
    }
  }

  method SelectTags(parse: Parser, s: Selection, source: seq<string>) returns (r: seq<string>)
    ensures forall t :: t in r <==> IsSelected(parse, s, source, t)
    ensures NoDup(r) && OrderedByFields(parse, r, false)
  {
    var selected: set<string> := {};
    for i := 0 to |source|
      invariant forall t :: t in selected <==> t in source[..i] && Filtered(parse, s, t)
    {
      var tag := source[i];
      assert source[..i + 1] == source[..i] + [tag];
      if s.includes.Some? && !s.includes.value(tag) {
        continue;
      }
      if Excluded(s, tag) {
        continue;
      }
      if s.semverOnly && parse(tag).None? {
        continue;
      }
      selected := selected + {tag};
    }
    assert source[..|source|] == source;
    for i := 0 to |s.names|
      invariant forall t :: t in selected <==> t in source && (Filtered(parse, s, t) || t in s.names[..i])
    {
      assert s.names[..i + 1] == s.names[..i] + [s.names[i]];
      if s.names[i] in source {
        selected := selected + {s.names[i]};
      }
    }
    assert s.names[..|s.names|] == s.names;
    var listing := ListSet(selected);
    r := SortTags(parse, listing, false);
    SortSemverSorts(parse, listing, false);
    SortedByFields(parse, r, false);
    SameElements(r, listing);
    NoDupMultiset(listing);
    NoDupFromMultiset(r, Elements(listing));
    forall t ensures t in r <==> IsSelected(parse, s, source, t) {
      assert t in r <==> t in Elements(listing);
    }
  }

  predicate Filtered(parse: Parser, s: Selection, tag: string) {
    (s.includes.Some? ==> s.includes.value(tag)) && !Excluded(s, tag) && (s.semverOnly ==> parse(tag).Some?)
  }

  // ---- into the plan ------------------------------------------------------------------------------------------------

  function AsAliases(d: seq<(string, string)>): (r: seq<Reconcile.Alias>)
    ensures |r| == |d| && forall i | 0 <= i < |r| :: r[i] == Reconcile.Alias(d[i].0, d[i].1)
  {
    seq(|d|, i requires 0 <= i < |d| => Reconcile.Alias(d[i].0, d[i].1))
  }

  /** A variant as the import is expanded: all variants share the selection and its aliases. */
  function Expand(parse: Parser, render: Renderer, templates: seq<string>, tags: seq<string>,
                  name: string, suffix: string, steps: seq<string>): Reconcile.Variant {
    Reconcile.Variant(name, suffix, steps, tags, AsAliases(Resolve(parse, render, templates, tags)))
  }

  /** Expansion meets what reconciling assumes: every alias designates a selected tag, and names are distinct. */
  lemma ExpandIsPlannable(parse: Parser, render: Renderer, templates: seq<string>, tags: seq<string>,
                          name: string, suffix: string, steps: seq<string>)
    ensures var v := Expand(parse, render, templates, tags, name, suffix, steps);
            && v.name == name && v.suffix == suffix && v.steps == steps && v.tags == tags
            && (forall a :: a in v.aliases <==>
                Lookup(Resolve(parse, render, templates, tags), a.name) == Some(a.target))
            && (forall a | a in v.aliases :: a.target in v.tags)
            && (forall i, j | 0 <= i < j < |v.aliases| :: v.aliases[i].name != v.aliases[j].name)
  {
    var d := Resolve(parse, render, templates, tags);
    var v := Expand(parse, render, templates, tags, name, suffix, steps);
    AliasNamesDistinct(parse, render, templates, tags);
    forall a: Reconcile.Alias | Lookup(d, a.name) == Some(a.target) ensures a in v.aliases {
      LookupFound(d, a.name);
      var i :| 0 <= i < |d| && d[i] == (a.name, a.target);
      assert v.aliases[i] == a;
    }
    forall i | 0 <= i < |d|
      ensures v.aliases[i].target in tags && Lookup(d, v.aliases[i].name) == Some(v.aliases[i].target)
    {
      ResolvedIff(parse, render, templates, tags, d[i].0);
      LookupMember(d, d[i]);
      var k := LastProducer(render, templates, tags, d[i].0);
      AliasesAreHighest(parse, render, templates, tags, d[i].0, k);
    }
  }

  lemma {:induction false} LastProducer(render: Renderer, templates: seq<string>, tags: seq<string>, name: string)
    returns (k: nat)
    requires SomeProduces(render, templates, tags, name)
    ensures k < |templates| && Produces(render, templates[k], tags, name)
    ensures forall j | k < j < |templates| :: !Produces(render, templates[j], tags, name)
  {
    hide Produces;
    var n := |templates| - 1;
    if Produces(render, templates[n], tags, name) {
      k := n;
    } else {
      var i :| 0 <= i < |templates| && Produces(render, templates[i], tags, name);
      assert templates[..n][i] == templates[i];
      k := LastProducer(render, templates[..n], tags, name);
    }
  }
}
