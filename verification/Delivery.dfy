/**
  What sites can hold while a serializer changes plans one step at a time.

  `content` is the part of a tag that a serializer is careful with: the addresses, the rendered
  images or the rendered credential versions. The window says that every site holds revision
  `floor` or a newer one, and that every revision from there on has the content `previous` or
  the one the hub asks for now. So the plans any two sites accepted have one of two contents.
*/
module Delivery {
  import opened Common
  import P = PlanProtocol

  ghost predicate Window<T, C>(declared: set<string>, s: P.System<T>, content: T -> C, floor: nat, previous: C) {
    && floor < |s.issued|
    && (floor > 0 ==> forall n :: n in declared ==> n in s.cache && floor <= s.cache[n].revision)
    && (forall r :: floor <= r < |s.issued| ==>
          content(s.issued[r]) == previous || content(s.issued[r]) == content(s.hub.tag))
  }

  lemma StepKeepsWindow<T, C>(declared: set<string>, s: P.System<T>, e: P.Event<T>, content: T -> C, floor: nat, previous: C)
    requires P.Inv(declared, s) && P.Enabled(declared, s, e) && !e.Patch? && Window(declared, s, content, floor, previous)
    ensures Window(declared, P.Do(declared, s, e), content, floor, previous)
  {
    var t := P.Do(declared, s, e);
    assert P.Grows(s, t) by { P.StepKeeps(declared, s, e); }
    if !e.Pass? {
      P.QuietStep(declared, s, e);
    }
  }

  function Patched<T(==)>(s: P.System<T>, tag: T): P.System<T> { s.(hub := s.hub.(tag := tag)) }

  lemma PatchKeepsProtocol<T>(declared: set<string>, s: P.System<T>, tag: T)
    requires P.Inv(declared, s)
    ensures P.Inv(declared, Patched(s, tag))
  {
  }

  /** A tag change that leaves the content, or that happens when all have the present content. */
  lemma PatchKeepsWindow<T, C>(declared: set<string>, s: P.System<T>, tag: T, content: T -> C, floor: nat, previous: C)
    requires Window(declared, s, content, floor, previous)
    requires content(tag) == content(s.hub.tag) || previous == content(s.hub.tag)
    ensures Window(declared, Patched(s, tag), content, floor, previous)
  {
  }

  /** Once every site applied the active revision, and that one has the present content, all have it. */
  lemma AppliedSettles<T, C>(declared: set<string>, s: P.System<T>, content: T -> C)
    requires P.Inv(declared, s) && P.AllSitesApplied(s.hub.sites, s.hub.active)
    requires s.hub.active < |s.issued| && content(s.issued[s.hub.active]) == content(s.hub.tag)
    ensures Window(declared, s, content, s.hub.active, content(s.hub.tag))
  {
    P.AllAppliedMeansReported(declared, s);
  }

  /** Every accepted plan has the previous content or the present one. */
  lemma AcceptedIsInWindow<T, C>(declared: set<string>, s: P.System<T>, content: T -> C, floor: nat, previous: C, n: string)
    requires P.Inv(declared, s) && Window(declared, s, content, floor, previous) && n in s.cache
    ensures content(s.cache[n].tag) == previous || content(s.cache[n].tag) == content(s.hub.tag)
  {
    assert n in declared && P.GenuinePlan(s.issued, s.cache[n]);
  }
}
