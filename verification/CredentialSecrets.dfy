/**
  The three credential Secrets of a site: staging of a new version, promotion and final cleanup,
  each a sequence of writes that may be cut off. `budget` is the number of writes that get through.
*/
module CredentialSecrets {
  import opened Common

  /** `reserved` says that the user names carry the prefixes kept for rotated credentials. */
  datatype Credential = Credential(version: nat, data: int, reserved: bool)

  datatype Secrets = Secrets(active: Option<Credential>, pending: Option<Credential>, previous: Option<Credential>)

  datatype Outcome = Done | Failed | Interrupted

  /** A version other than the active one is staged beside it and never replaces it. */
  function Staged(s: Secrets, c: Credential): (Secrets, Outcome) {
    if s.active.None? || s.active.value.version == c.version || (s.active.value.version == 0 && s.active.value.data == c.data)
    then (s.(active := Some(c)), Done)
    else if !c.reserved then (s, Failed)
    else (s.(pending := Some(c)), Done)
  }

  /** The active credential is kept as the previous one, once, before the pending one takes its place. */
  function Promoted(s: Secrets, budget: nat): (Secrets, Outcome) {
    if s.pending.None? || s.active.None? then (s, Failed)
    else if budget == 0 then (s, Interrupted)
    else if s.previous.Some? then (s.(active := s.pending), Done)
    else
      var kept := s.(previous := s.active);
      if budget == 1 then (kept, Interrupted) else (kept.(active := s.pending), Done)
  }

  function Finalized(s: Secrets, budget: nat): (Secrets, Outcome) {
    if budget == 0 then (s, Interrupted)
    else if budget == 1 then (s.(pending := None), Interrupted)
    else (s.(pending := None, previous := None), Done)
  }

  class SiteSecrets {
    var secrets: Secrets

    constructor (active: Option<Credential>)
      ensures secrets == Secrets(active, None, None)
    {
      secrets := Secrets(active, None, None);
    }

    method ReconcilePostgresCredentials(c: Credential) returns (o: Outcome)
      modifies this
      ensures (secrets, o) == Staged(old(secrets), c)
    {
      if secrets.active.None? || secrets.active.value.version == c.version {
        secrets := secrets.(active := Some(c));
        return Done;
      }
      if secrets.active.value.version == 0 && secrets.active.value.data == c.data {
        secrets := secrets.(active := Some(c));
        return Done;
      }
      if !c.reserved {
        return Failed;
      }
      secrets := secrets.(pending := Some(c));
      return Done;
    }

    method PromotePendingCredentials(budget: nat) returns (o: Outcome)
      modifies this
      ensures (secrets, o) == Promoted(old(secrets), budget)
    {
      if secrets.pending.None? || secrets.active.None? {
        return Failed;
      }
      var left := budget;
      if secrets.previous.None? {
        if left == 0 {
          return Interrupted;
        }
        secrets := secrets.(previous := secrets.active);
        left := left - 1;
      }
      if left == 0 {
        return Interrupted;
      }
      secrets := secrets.(active := secrets.pending);
      return Done;
    }

    method DeleteRotationSecrets(budget: nat) returns (o: Outcome)
      modifies this
      ensures (secrets, o) == Finalized(old(secrets), budget)
    {
      if budget == 0 {
        return Interrupted;
      }
      secrets := secrets.(pending := None);
      if budget == 1 {
        return Interrupted;
      }
      secrets := secrets.(previous := None);
      return Done;
    }
  }

  datatype Event = Stage(credential: Credential) | Promote(budget: nat) | Finish(budget: nat)

  function Do(s: Secrets, e: Event): Secrets {
    match e
    case Stage(c) => Staged(s, c).0
    case Promote(budget) => Promoted(s, budget).0
    case Finish(budget) => Finalized(s, budget).0
  }

  ghost predicate Run(ss: seq<Secrets>, es: seq<Event>) {
    |ss| == |es| + 1 && forall i :: 0 <= i < |es| ==> ss[i + 1] == Do(ss[i], es[i])
  }

  /** During a rotation from `from` to `to` the old credential is at hand, as the active or the previous one. */
  predicate OldAtHand(s: Secrets, from: Credential, to: Credential) {
    && (s.pending.Some? ==> s.pending == Some(to))
    && (if s.previous.None? then s.active == Some(from)
        else s.previous == Some(from) && (s.active == Some(from) || s.active == Some(to)))
  }

  /**
    However often staging and promotion are repeated and cut off, the credential that was active
    before the rotation is never lost before the rotation is finished.
  */
  lemma {:induction false} OldCredentialIsKept(ss: seq<Secrets>, es: seq<Event>, from: Credential, to: Credential, i: nat)
    requires Run(ss, es) && ss[0] == Secrets(Some(from), None, None) && i < |ss| && from.version != to.version
    requires from.version != 0 || from.data != to.data
    requires forall k :: 0 <= k < |es| ==> !es[k].Finish? && (es[k].Stage? ==> es[k].credential == to)
    ensures OldAtHand(ss[i], from, to)
  {
    if i > 0 {
      OldCredentialIsKept(ss, es, from, to, i - 1);
    }
  }

  /** The credential is the one in force, possibly under a version number it did not have before. */
  predicate Refreshes(active: Option<Credential>, c: Credential) {
    active.None? || active.value.version == c.version || (active.value.version == 0 && active.value.data == c.data)
  }

  /**
    In every run, staging takes effect: it refreshes the credential in force, or stages another one
    beside it if its user names are reserved ones, and is refused otherwise.
  */
  lemma StagingTakesEffect(ss: seq<Secrets>, es: seq<Event>, i: nat)
    requires Run(ss, es) && i < |es| && es[i].Stage?
    ensures
      var c := es[i].credential;
      && ss[i + 1].previous == ss[i].previous
      && ss[i + 1].active == (if Refreshes(ss[i].active, c) then Some(c) else ss[i].active)
      && ss[i + 1].pending == (if !Refreshes(ss[i].active, c) && c.reserved then Some(c) else ss[i].pending)
      && (Staged(ss[i], c).1 == Failed <==> !Refreshes(ss[i].active, c) && !c.reserved)
  {
  }

  /** In every run, another version comes into force only by promotion of the staged one, with the old one kept. */
  lemma VersionMovesByPromotion(ss: seq<Secrets>, es: seq<Event>, i: nat)
    requires Run(ss, es) && i < |es| && ss[i].active.Some? && ss[i].active.value.version != 0
    requires ss[i + 1].active.None? || ss[i + 1].active.value.version != ss[i].active.value.version
    ensures es[i].Promote? && ss[i].pending.Some? && ss[i + 1].active == ss[i].pending
    ensures ss[i + 1].previous == if ss[i].previous.Some? then ss[i].previous else ss[i].active
  {
  }

  predicate StagedBefore(es: seq<Event>, i: nat, c: Credential) {
    exists j :: 0 <= j < i && j < |es| && es[j] == Stage(c)
  }

  /** In every run, what is staged was staged by an earlier event, under reserved user names. */
  lemma {:induction false} PendingWasStaged(ss: seq<Secrets>, es: seq<Event>, i: nat)
    requires Run(ss, es) && ss[0].pending.None? && i < |ss| && ss[i].pending.Some?
    ensures ss[i].pending.value.reserved && StagedBefore(es, i, ss[i].pending.value)
  {
    var c := ss[i].pending.value;
    if ss[i - 1].pending == Some(c) {
      PendingWasStaged(ss, es, i - 1);
      var j :| 0 <= j < i - 1 && j < |es| && es[j] == Stage(c);
      assert es[j] == Stage(c);
    } else {
      assert es[i - 1] == Stage(c);
    }
  }

  /** However a final cleanup is cut off, the credential in force stays, and the previous one goes last. */
  lemma FinishDropsPreviousLast(s: Secrets, budget: nat)
    ensures
      var (t, o) := Finalized(s, budget);
      && t.active == s.active && (o.Done? <==> budget >= 2)
      && (t.pending.Some? ==> t == s) && (t.previous.None? && s.previous.Some? ==> t.pending.None? && o.Done?)
      && (budget >= 1 ==> t.pending.None?) && (o.Done? ==> t.previous.None?)
  {
  }

  /** A promotion that reports success is in effect, repeating it changes nothing, and finishing keeps it. */
  lemma PromotionIsIdempotent(s: Secrets, from: Credential, to: Credential, budget: nat, again: nat)
    requires OldAtHand(s, from, to) && Promoted(s, budget).1.Done?
    ensures
      var t := Promoted(s, budget).0;
      t == Secrets(Some(to), Some(to), Some(from)) && Promoted(t, again).0 == t &&
      Finalized(t, 2).0 == Secrets(Some(to), None, None)
  {
  }
}
