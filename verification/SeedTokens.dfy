/**
 Whether the seed account can come by a token: exactly in which states that is still possible, and
 at which event it becomes possible.
 */
module SeedTokens {
  import opened Basics
  import opened Messages
  import opened Tables
  import opened Bookkeeping
  import opened Hex
  import opened Auth
  import opened Machine
  import opened Safety
  import opened Guarantees
  import opened Gateway

  ghost predicate SeedHasToken(s: System) {
    exists k :: 0 <= k < |s.auth| && s.auth[k].account == SEED_ID
  }

  ghost predicate SeedInReply(s: System) {
    exists t :: t in s.replies && ReplyClaim(s.replies[t]) == Some(SEED_ID)
  }

  ghost predicate SeedAwaitsToken(s: System) {
    exists i :: 0 <= i < |s.procs| && ProcClaim(s.procs[i]) == Some(SEED_ID)
  }

  /** The seed's identifier is free, on its way to a token, or has one. */
  ghost predicate SeedExposed(s: System) {
    SEED_ID !in Ids(s.db.accounts) || SeedInReply(s) || SeedAwaitsToken(s) || SeedHasToken(s)
  }

  /** Some continuation ends with a token for the seed. */
  ghost predicate SeedTokenPossible(c: Crypto, s: System) {
    exists more :: SeedHasToken(Run(c, s, more))
  }

  // ---------------------------------------------------------------- what is not exposed stays so

  /** The identifier is taken, and claims and tokens are as they are in a system with a seed. */
  ghost predicate SeedWithheld(s: System) {
    SEED_ID in Ids(s.db.accounts) && TokensOk(s.(seeded := true))
  }

  lemma WithheldIsNotExposed(s: System)
    requires TokensOk(s)
    ensures SeedWithheld(s) <==> !SeedExposed(s)
  {
  }

  lemma SeededIsHistoryForCalls(s: System, tag: Tag, pid: nat, env: Env, dies: bool)
    ensures StepHandle(s.(seeded := true), tag, env, dies) == StepHandle(s, tag, env, dies).(seeded := true)
    ensures StepDeliver(s.(seeded := true), tag, pid) == StepDeliver(s, tag, pid).(seeded := true)
  {
  }

  /** Nothing the system does depends on the history flag. */
  lemma SeededIsHistory(c: Crypto, s: System, e: Event)
    ensures Step(c, s.(seeded := true), e) == Step(c, s, e).(seeded := true)
  {
    if e.Handle? {
      SeededIsHistoryForCalls(s, e.tag, 0, e.env, e.dies);
    } else if e.Deliver? {
      SeededIsHistoryForCalls(s, e.tag, e.pid, Env(0, 0, 0, []), false);
    }
  }

  lemma {:induction false} RunKeepsWithheld(c: Crypto, s: System, more: seq<Event>)
    requires SeedWithheld(s)
    ensures SeedWithheld(Run(c, s, more))
  {
    if more != [] {
      var init, e := more[..|more| - 1], more[|more| - 1];
      RunKeepsWithheld(c, s, init);
      var before := Run(c, s, init);
      StepKeepsTokens(c, before.(seeded := true), e);
      SeededIsHistory(c, before, e);
      StepKeepsIds(c, before, e);
    }
  }

  // ---------------------------------------------------------------- what is exposed can be issued

  /** Events that start no core. */
  ghost predicate NoStarts(events: seq<Event>) {
    forall i :: 0 <= i < |events| ==> !events[i].StartCore?
  }

  lemma AwaitedIsIssued(c: Crypto, s: System, i: nat, bytes: Bytes)
    requires i < |s.procs| && ProcClaim(s.procs[i]) == Some(SEED_ID) && |bytes| == TOKEN_BYTES
    ensures SeedHasToken(Run(c, s, [IssueToken(i, bytes, 0, 0)]))
  {
    RunOfOne(c, s, IssueToken(i, bytes, 0, 0));
    assert Run(c, s, [IssueToken(i, bytes, 0, 0)]).auth[|s.auth|].account == SEED_ID;
  }

  /** A new request that draws the identifier of the answer in flight accepts it. */
  lemma ReplyIsTaken(c: Crypto, s: System, t: Tag, bytes: Bytes) returns (more: seq<Event>)
    requires RepliesLinked(s) && s.running && |bytes| == TOKEN_BYTES
    requires t in s.replies && ReplyClaim(s.replies[t]) == Some(SEED_ID)
    ensures NoStarts(more) && SeedHasToken(Run(c, s, more))
  {
    var pid := |s.procs|;
    var spawn, send, deliver := Spawn(CreateAccount), Send(pid, s.replies[t].id), Deliver(t, pid);
    var s1 := Step(c, s, spawn);
    var s2 := Step(c, s1, send);
    var s3 := Step(c, s2, deliver);
    assert s1.procs[pid] == Proc(CreateAccount, Fresh, [], []);
    assert s2.replies == s.replies && s2.procs[pid].log[0].packet.id == s.replies[t].id;
    assert ProcClaim(s3.procs[pid]) == Some(SEED_ID);
    RunOfThree(c, s, spawn, send, deliver);
    AwaitedIsIssued(c, s3, pid, bytes);
    var issue := [IssueToken(pid, bytes, 0, 0)];
    RunOfConcat(c, s, [spawn, send, deliver], issue);
    more := [spawn, send, deliver] + issue;
  }

  /** One account request, answered and completed, whose random identifier hits the seed's. */
  function Collision(pid: nat, bytes: Bytes): seq<Event> {
    [Spawn(CreateAccount)] + (Round(pid, 0, Env(SEED_ID, 0, 0, [])) + [IssueToken(pid, bytes, 0, 0)])
  }

  lemma FreeIsCreated(c: Crypto, s: System, bytes: Bytes)
    requires Inv(c, s) && s.running && |bytes| == TOKEN_BYTES && SEED_ID !in Ids(s.db.accounts)
    ensures var s' := Run(c, s, Collision(|s.procs|, bytes));
            s'.auth == s.auth + [NewRow(c, SEED_ID, bytes, 0, 0)] && SeedHasToken(s')
            && s'.db == s.db.(accounts := s.db.accounts + [Account(SEED_ID, 0, 0)])
  {
    var s1 := Step(c, s, Spawn(CreateAccount));
    var env := Env(SEED_ID, 0, 0, []);
    StepKeepsInv(c, s, Spawn(CreateAccount));
    RunOfOne(c, s, Spawn(CreateAccount));
    NewAccountGetsToken(c, s1, |s.procs|, env, bytes, 0, 0);
    RunOfConcat(c, s, [Spawn(CreateAccount)], Round(|s.procs|, 0, env) + [IssueToken(|s.procs|, bytes, 0, 0)]);
    assert Run(c, s, Collision(|s.procs|, bytes)).auth[|s.auth|].account == SEED_ID;
  }

  /** While the core runs, an exposed seed gets its token with no further start. */
  lemma ExposedIsIssued(c: Crypto, s: System) returns (more: seq<Event>)
    requires Inv(c, s) && s.running && SeedExposed(s)
    ensures NoStarts(more) && SeedHasToken(Run(c, s, more))
  {
    var bytes: Bytes := seq(TOKEN_BYTES, i => 0);
    if SeedHasToken(s) {
      more := [];
    } else if SeedAwaitsToken(s) {
      var i :| 0 <= i < |s.procs| && ProcClaim(s.procs[i]) == Some(SEED_ID);
      AwaitedIsIssued(c, s, i, bytes);
      more := [IssueToken(i, bytes, 0, 0)];
    } else if SeedInReply(s) {
      var t :| t in s.replies && ReplyClaim(s.replies[t]) == Some(SEED_ID);
      more := ReplyIsTaken(c, s, t, bytes);
    } else {
      FreeIsCreated(c, s, bytes);
      more := Collision(|s.procs|, bytes);
    }
  }

  // ---------------------------------------------------------------- exactly when

  /**
   In every reachable state the seed can still come by a token if and only if its identifier is
   free, on its way to a token, or has one.
   */
  lemma SeedTokenPossibleIffExposed(c: Crypto, events: seq<Event>)
    ensures var s := Run(c, INITIAL, events); SeedTokenPossible(c, s) <==> SeedExposed(s)
  {
    InvFromTheStart(c, events);
    var s := Run(c, INITIAL, events);
    WithheldIsNotExposed(s);
    if SeedWithheld(s) {
      forall more ensures !SeedHasToken(Run(c, s, more)) {
        RunKeepsWithheld(c, s, more);
      }
    } else {
      var start := StartCore(true, 0);
      StepKeepsInv(c, s, start);
      var more := ExposedIsIssued(c, Step(c, s, start));
      RunOfOne(c, s, start);
      RunOfConcat(c, s, [start], more);
      assert SeedHasToken(Run(c, s, [start] + more));
    }
  }

  /** A circulation that exists keeps the seed out of reach for good. */
  lemma SeededIsNotExposed(c: Crypto, s: System)
    requires Inv(c, s) && s.seeded
    ensures !SeedExposed(s)
  {
    WithheldIsNotExposed(s);
    assert s.(seeded := true) == s;
  }

  /**
   A start that finds the seed's identifier free decides it: if and only if its insert fails, the
   seed can come by a token later on, and then it can without any other start.
   */
  lemma FailedSeedingDecides(c: Crypto, before: seq<Event>, fails: bool, now: Time)
    requires var s := Run(c, INITIAL, before); !s.running && SEED_ID !in Ids(s.db.accounts)
    ensures (exists more :: SeedHasToken(Run(c, INITIAL, before + [StartCore(fails, now)] + more))) <==> fails
    ensures fails ==>
              exists more :: NoStarts(more) && SeedHasToken(Run(c, INITIAL, before + [StartCore(fails, now)] + more))
  {
    var start := [StartCore(fails, now)];
    var s := Run(c, INITIAL, before + start);
    InvFromTheStart(c, before + start);
    RunOfConcat(c, INITIAL, before, start);
    RunOfOne(c, Run(c, INITIAL, before), start[0]);
    if fails {
      var more := ExposedIsIssued(c, s);
      RunOfConcat(c, INITIAL, before + start, more);
    } else {
      SeededIsNotExposed(c, s);
      SeedTokenPossibleIffExposed(c, before + start);
      forall more ensures !SeedHasToken(Run(c, INITIAL, before + start + more)) {
        RunOfConcat(c, INITIAL, before + start, more);
        assert !SeedHasToken(Run(c, s, more));
      }
    }
  }

  // ---------------------------------------------------------------- whole runs

  /** Wherever a start of the run fails to insert the seed, the core is up already or the seed is stored. */
  ghost predicate SeedingFailsOnlyWhenStored(c: Crypto, events: seq<Event>) {
    forall i :: 0 <= i < |events| && events[i].StartCore? && events[i].seedFails ==>
      var s := Run(c, INITIAL, events[..i]); s.running || SEED_ID in Ids(s.db.accounts)
  }

  ghost predicate ServingSeeded(s: System) {
    s.running || s.db.accounts != [] ==> s.seeded
  }

  lemma StepKeepsServingSeeded(c: Crypto, s: System, e: Event)
    requires Sound(s.seeded, s.db) && ServingSeeded(s)
    requires e.StartCore? && e.seedFails ==> s.running || SEED_ID in Ids(s.db.accounts)
    ensures ServingSeeded(Step(c, s, e))
  {
  }

  /** In such a run a core that serves, or has ever made an account, is seeded. */
  lemma {:induction false} ServingMeansSeeded(c: Crypto, events: seq<Event>)
    requires SeedingFailsOnlyWhenStored(c, events)
    ensures ServingSeeded(Run(c, INITIAL, events))
  {
    if events != [] {
      var init, e := events[..|events| - 1], events[|events| - 1];
      assert forall i :: 0 <= i < |init| ==> events[..i] == init[..i] && events[i] == init[i];
      ServingMeansSeeded(c, init);
      InvFromTheStart(c, init);
      StepKeepsServingSeeded(c, Run(c, INITIAL, init), e);
    }
  }

  /**
   When no start that finds the seed's identifier free fails to insert it, the seed never has a
   token, at any moment of the run.
   */
  lemma SeedNeverHasToken(c: Crypto, events: seq<Event>)
    requires SeedingFailsOnlyWhenStored(c, events)
    ensures !SeedHasToken(Run(c, INITIAL, events))
  {
    InvFromTheStart(c, events);
    ServingMeansSeeded(c, events);
    var s := Run(c, INITIAL, events);
    forall k | 0 <= k < |s.auth| ensures s.auth[k].account != SEED_ID {
      assert s.auth[k].account in Ids(s.db.accounts);
    }
  }

  /**
   The condition is exact: a run meets it if and only if, at every moment at which the core serves,
   no continuation gives the seed a token.
   */
  lemma ServingIsSafeExactlyThen(c: Crypto, events: seq<Event>)
    ensures (forall j :: 0 <= j <= |events| && Run(c, INITIAL, events[..j]).running ==>
               !SeedTokenPossible(c, Run(c, INITIAL, events[..j])))
         <==> SeedingFailsOnlyWhenStored(c, events)
  {
    if SeedingFailsOnlyWhenStored(c, events) {
      forall j | 0 <= j <= |events| && Run(c, INITIAL, events[..j]).running
        ensures !SeedTokenPossible(c, Run(c, INITIAL, events[..j]))
      {
        assert forall i :: 0 <= i < j ==> events[..j][..i] == events[..i] && events[..j][i] == events[i];
        ServingMeansSeeded(c, events[..j]);
        InvFromTheStart(c, events[..j]);
        SeededIsNotExposed(c, Run(c, INITIAL, events[..j]));
        SeedTokenPossibleIffExposed(c, events[..j]);
      }
    } else {
      var i :| 0 <= i < |events| && events[i].StartCore? && events[i].seedFails
        && !Run(c, INITIAL, events[..i]).running && SEED_ID !in Ids(Run(c, INITIAL, events[..i]).db.accounts);
      RunPrefix(c, INITIAL, events, i);
      SeedTokenPossibleIffExposed(c, events[..i + 1]);
    }
  }

  /** The run in which the failed insert is not noticed and a random identifier hits the seed's. */
  lemma UnseededCoreMayIssueSeedToken(c: Crypto, bytes: Bytes)
    requires |bytes| == TOKEN_BYTES
    ensures var s := Run(c, INITIAL, [StartCore(true, 0)] + Collision(0, bytes));
            s.auth == [NewRow(c, SEED_ID, bytes, 0, 0)] && s.db.accounts == [Account(SEED_ID, 0, 0)]
  {
    var start := [StartCore(true, 0)];
    InvFromTheStart(c, start);
    RunOfOne(c, INITIAL, start[0]);
    RunOfConcat(c, INITIAL, start, Collision(0, bytes));
    FreeIsCreated(c, Run(c, INITIAL, start), bytes);
  }
}
