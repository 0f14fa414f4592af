/** Properties of tagging (`tag`, `tagged` and the traversal of a group, in
    src/Container.php and src/Utils/TagGenerator.php). */
module TagProperties {
  import opened Values
  import opened Reflection
  import opened Bindings
  import opened Resolution
  import UtilsTagGenerator
  import ContainerProperties
  import Replay

  /** `tag(aliases, names)` appends the aliases, in order, to a tag once for
      every time the tag is named, keeping what the tag held; duplicates
      are kept. */
  lemma {:induction false} TagAllContents(tags: map<string, seq<string>>, aliases: seq<string>, names: seq<string>, t: string)
    ensures TagOf(TagAll(tags, aliases, names), t) == TagOf(tags, t) + Repeat(aliases, multiset(names)[t])
    decreases |names|
  {
    if names == [] {
      assert TagOf(tags, t) + [] == TagOf(tags, t);
    } else {
      var n := |names| - 1;
      var x := names[n];
      var m := TagAll(tags, aliases, names[..n]);
      var k := multiset(names[..n])[t];
      TagAllContents(tags, aliases, names[..n], t);
      CountSnoc(names, t);
      assert TagAll(tags, aliases, names) == m[x := TagOf(m, x) + aliases];
      TagStep(m, aliases, x, t);
      if x == t {
        RepeatSnoc(TagOf(tags, t), aliases, k);
      }
    }
  }

  /** How often `t` occurs in a non-empty sequence, by its last element. */
  lemma CountSnoc(names: seq<string>, t: string)
    requires names != []
    ensures var n := |names| - 1;
      multiset(names)[t] == multiset(names[..n])[t] + if names[n] == t then 1 else 0
  {
    var n := |names| - 1;
    assert names == names[..n] + [names[n]];
    assert multiset(names) == multiset(names[..n]) + multiset{names[n]};
  }

  /** One more tagging of `x`: only tag `x` grows, by the aliases. */
  lemma TagStep(m: map<string, seq<string>>, aliases: seq<string>, x: string, t: string)
    ensures TagOf(m[x := TagOf(m, x) + aliases], t) == if x == t then TagOf(m, t) + aliases else TagOf(m, t)
  {
  }

  /** One more repetition joins the end. */
  lemma RepeatSnoc(front: seq<string>, aliases: seq<string>, k: nat)
    ensures (front + Repeat(aliases, k)) + aliases == front + Repeat(aliases, k + 1)
  {
    assert Repeat(aliases, k + 1) == Repeat(aliases, k) + aliases;
  }

  /** The defined tags afterwards are the old ones and the named ones. */
  lemma {:induction false} TagAllKeys(tags: map<string, seq<string>>, aliases: seq<string>, names: seq<string>)
    ensures forall t :: t in TagAll(tags, aliases, names) <==> t in tags || t in names
    decreases |names|
  {
    if names != [] {
      var n := |names| - 1;
      TagAllKeys(tags, aliases, names[..n]);
      assert names == names[..n] + [names[n]];
    }
  }

  /** A group's count is the tag's length when `tagged` was called, while a
      traversal reads the tag as it is when the traversal starts: aliases
      tagged afterwards are visited but not counted. */
  lemma CountFixedTraversalLive(w: World, s: State, tag: string, aliases: seq<string>, e: State, fuel: nat)
    requires tag in s.tags
    ensures var g := Tagged(s, tag).value;
      var later := s.(tags := TagAll(s.tags, aliases, [tag]));
      && UtilsTagGenerator.Count(g, e) == |s.tags[tag]|
      && Traverse(w, later, g, |s.tags[tag]| + |aliases|, fuel)
         == ResolveEach(w, later, s.tags[tag] + aliases, fuel)
  {
    TagAllContents(s.tags, aliases, [tag], tag);
    assert multiset([tag])[tag] == 1;
    assert Repeat(aliases, 1) == aliases;
    var list := s.tags[tag] + aliases;
    assert list[..|list|] == list;
  }

  /** Resolving aliases that are all bound shared, with no providers, leaves
      each one cached with the value it yielded. */
  lemma {:induction false} ResolveEachCaches(w: World, s: State, aliases: seq<string>, fuel: nat)
    requires s.agg.providers == []
    requires forall i :: 0 <= i < |aliases| ==> IsShared(s.bindings, aliases[i])
    ensures var o := ResolveEach(w, s, aliases, fuel);
      o.result.Ok? ==>
        && |o.result.value| == |aliases|
        && forall i :: 0 <= i < |aliases| ==>
             aliases[i] in o.state.singletons && o.state.singletons[aliases[i]] == o.result.value[i]
    decreases |aliases|
  {
    if aliases != [] {
      var n := |aliases| - 1;
      ResolveEachCaches(w, s, aliases[..n], fuel);
      ContainerProperties.ResolveEachEvolves(w, s, aliases[..n], fuel);
      var o := ResolveEach(w, s, aliases[..n], fuel);
      if o.result.Ok? {
        var r := Resolve(w, o.state, aliases[n], fuel);
        if r.result.Ok? {
          ContainerProperties.ResolveEvolves(w, o.state, aliases[n], fuel);
          assert o.state.bindings == s.bindings && r.state.bindings == o.state.bindings;
          ContainerProperties.SharedStaysCached(w, o.state, aliases[n], fuel, fuel);
          var t := ResolveEach(w, s, aliases, fuel);
          assert t == Outcome(Ok(o.result.value + [r.result.value]), r.state);
          forall i | 0 <= i < |aliases|
            ensures aliases[i] in t.state.singletons && t.state.singletons[aliases[i]] == t.result.value[i]
          {
            if i < n {
              assert aliases[..n][i] == aliases[i];
              assert aliases[i] in o.state.singletons;
            }
          }
        }
      }
    }
  }

  /** Aliases that are all cached resolve to their cached values, with no
      change. */
  lemma {:induction false} ResolveEachCached(w: World, s: State, aliases: seq<string>, fuel: nat)
    requires forall i :: 0 <= i < |aliases| ==> aliases[i] in s.singletons
    ensures var o := ResolveEach(w, s, aliases, fuel);
      && o.state == s && o.result.Ok? && |o.result.value| == |aliases|
      && forall i :: 0 <= i < |aliases| ==> o.result.value[i] == s.singletons[aliases[i]]
    decreases |aliases|
  {
    if aliases != [] {
      ResolveEachCached(w, s, aliases[..|aliases| - 1], fuel);
    }
  }

  /** A group is restartable: with no providers registered, a second
      traversal yields the same values as the first and changes nothing,
      whatever the aliases are bound to. */
  lemma TraverseTwice(w: World, s: State, g: UtilsTagGenerator.TagGenerator<string, State>, k: nat, fuel: nat)
    requires s.agg.providers == []
    requires Traverse(w, s, g, k, fuel).result.Ok?
    ensures var o := Traverse(w, s, g, k, fuel);
      Traverse(w, o.state, g, k, fuel) == o
  {
    var list := TagOf(s.tags, g.generator);
    var prefix := list[..if k < |list| then k else |list|];
    var o := ResolveEach(w, s, prefix, fuel);
    assert Traverse(w, s, g, k, fuel) == o;
    ContainerProperties.ResolveEachEvolves(w, s, prefix, fuel);
    Replay.ResolveEachReplay(w, s, prefix, fuel, o.state, fuel);
    assert Traverse(w, o.state, g, k, fuel) == ResolveEach(w, o.state, prefix, fuel);
  }
}
