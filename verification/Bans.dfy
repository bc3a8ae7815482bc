/** The list of banned addresses (wlms/server.go), which is pruned while it is searched. */
module Bans {
  import opened GoText

  // Times in seconds.
  const KICK_TIME := 5 * 60
  const BAN_TIME := 24 * 3600

  datatype Entry = Entry(ip: Text, until: int)

  datatype Event =
    | Kick(ip: Text, now: int)
    | Ban(ip: Text, now: int)
    | Ask(ip: Text, now: int)

  datatype Scanned = Scanned(entries: seq<Entry>, banned: bool)

  // The search: expired entries on the way are dropped, a hit ends it and leaves the rest alone.
  function Scan(entries: seq<Entry>, ip: Text, now: int): Scanned {
    if entries == [] then Scanned([], false)
    else if entries[0].until < now then Scan(entries[1..], ip, now)
    else if entries[0].ip == ip then Scanned(entries, true)
    else
      var rest := Scan(entries[1..], ip, now);
      rest.(entries := [entries[0]] + rest.entries)
  }

  function Step(entries: seq<Entry>, e: Event): seq<Entry> {
    match e
    case Kick(ip, now) => entries + [Entry(ip, now + KICK_TIME)]
    case Ban(ip, now) => entries + [Entry(ip, now + BAN_TIME)]
    case Ask(ip, now) => Scan(entries, ip, now).entries
  }

  function Run(es: seq<Event>): seq<Entry> {
    if es == [] then [] else Step(Run(es[..|es| - 1]), es[|es| - 1])
  }

  // What the event imposes, if anything: five minutes for a kick, and a day for a ban.
  function Imposed(e: Event): Option<Entry> {
    match e
    case Kick(ip, now) => Some(Entry(ip, now + 300))
    case Ban(ip, now) => Some(Entry(ip, now + 86400))
    case Ask(_, _) => None
  }

  // The reference: nothing is ever forgotten, and an address is banned while any of the bans
  // imposed on it has not expired.
  ghost predicate BannedByHistory(es: seq<Event>, ip: Text, now: int) {
    exists i :: 0 <= i < |es| && Unexpired(es[i], now) && Imposed(es[i]).value.ip == ip
  }

  // No question was asked at a time later than now. When kicks and bans came does not matter.
  ghost predicate NoLaterQuestion(es: seq<Event>, now: int) {
    forall i :: 0 <= i < |es| && es[i].Ask? ==> es[i].now <= now
  }

  // Bans whose time has not come at the given time.
  ghost predicate Unexpired(e: Event, clock: int) {
    Imposed(e).Some? && Imposed(e).value.until >= clock
  }

  // The list holds nothing but bans of the history, and all that have not expired.
  ghost predicate Faithful(entries: seq<Entry>, es: seq<Event>, clock: int) {
    && (forall x :: x in entries ==> exists i :: 0 <= i < |es| && Imposed(es[i]) == Some(x))
    && (forall i :: 0 <= i < |es| && Unexpired(es[i], clock) ==> Imposed(es[i]).value in entries)
  }

  lemma {:induction false} ScanIs(entries: seq<Entry>, ip: Text, now: int)
    ensures
      var r := Scan(entries, ip, now);
      && (forall x :: x in r.entries ==> x in entries)
      && (forall x :: x in entries && x.until >= now ==> x in r.entries)
      && (r.banned <==> exists x :: x in entries && x.ip == ip && x.until >= now)
  {
    if entries != [] {
      assert entries == [entries[0]] + entries[1..];
      ScanIs(entries[1..], ip, now);
      if entries[0].until >= now && entries[0].ip == ip {
        assert entries[0] in entries;
      }
    }
  }

  lemma {:induction false} StepIsFaithful(before: seq<Event>, e: Event, clock: int)
    requires Faithful(Run(before), before, clock) && (e.Ask? ==> e.now <= clock)
    ensures Faithful(Step(Run(before), e), before + [e], clock)
  {
    var es, entries := before + [e], Step(Run(before), e);
    if e.Ask? { ScanIs(Run(before), e.ip, e.now); }
    forall x | x in entries ensures exists i :: 0 <= i < |es| && Imposed(es[i]) == Some(x) {
      if x in Run(before) {
        var i :| 0 <= i < |before| && Imposed(before[i]) == Some(x);
        assert Imposed(es[i]) == Some(x);
      } else {
        assert Imposed(es[|before|]) == Some(x);
      }
    }
    forall i | 0 <= i < |es| && Unexpired(es[i], clock) ensures Imposed(es[i]).value in entries {
      if i < |before| { assert before[i] == es[i]; }
    }
  }

  lemma {:induction false} RunIsFaithful(es: seq<Event>, clock: int)
    requires NoLaterQuestion(es, clock)
    ensures Faithful(Run(es), es, clock)
  {
    if es != [] {
      var before, e := es[..|es| - 1], es[|es| - 1];
      RunIsFaithful(before, clock);
      StepIsFaithful(before, e, clock);
      assert es == before + [e];
    }
  }

  // After any events, a question is answered exactly as the whole history answers it, provided only
  // that no earlier question was asked at a later time.
  lemma {:induction false} AnswersAreExact(es: seq<Event>, ip: Text, now: int)
    requires NoLaterQuestion(es, now)
    ensures Scan(Run(es), ip, now).banned <==> BannedByHistory(es, ip, now)
  {
    RunIsFaithful(es, now);
    ScanIs(Run(es), ip, now);
    if BannedByHistory(es, ip, now) {
      var i :| 0 <= i < |es| && Unexpired(es[i], now) && Imposed(es[i]).value.ip == ip;
      assert Imposed(es[i]).value in Run(es);
    }
  }

  // Whatever the clock does, nobody is banned without a reason.
  lemma {:induction false} NobodyIsBannedWithoutReason(es: seq<Event>, ip: Text, now: int)
    ensures Scan(Run(es), ip, now).banned ==> BannedByHistory(es, ip, now)
  {
    ScanIs(Run(es), ip, now);
    forall x | x in Run(es) ensures exists i :: 0 <= i < |es| && Imposed(es[i]) == Some(x) {
      EntriesHaveEvents(es, x);
    }
  }

  lemma {:induction false} EntriesHaveEvents(es: seq<Event>, x: Entry)
    requires x in Run(es)
    ensures exists i :: 0 <= i < |es| && Imposed(es[i]) == Some(x)
  {
    var before, e := es[..|es| - 1], es[|es| - 1];
    if e.Ask? { ScanIs(Run(before), e.ip, e.now); }
    if x in Run(before) {
      EntriesHaveEvents(before, x);
      var i :| 0 <= i < |before| && Imposed(before[i]) == Some(x);
      assert Imposed(es[i]) == Some(x);
    } else {
      assert Imposed(es[|es| - 1]) == Some(x);
    }
  }

  // The proviso is needed: a question dropped a ban as expired, and an earlier time is asked about
  // after it. The clock the server reads does not go back while it runs, so its questions comply.
  lemma LaterQuestionForgives(ip: Text)
    ensures
      var es := [Kick(ip, 0), Ask(ip, KICK_TIME + 1)];
      && !NoLaterQuestion(es, KICK_TIME)
      && !Scan(Run(es), ip, KICK_TIME).banned && BannedByHistory(es, ip, KICK_TIME)
  {
    var es := [Kick(ip, 0), Ask(ip, KICK_TIME + 1)];
    assert es[..1] == [Kick(ip, 0)] && es[..1][..0] == [];
    assert Run(es[..1]) == [Entry(ip, KICK_TIME)];
    var kicked := [Entry(ip, KICK_TIME)];
    assert Run(es) == Scan(kicked, ip, KICK_TIME + 1).entries;
    assert kicked[1..] == [] && Scan(kicked, ip, KICK_TIME + 1) == Scan([], ip, KICK_TIME + 1);
    assert Run(es) == [];
    assert Imposed(es[0]) == Some(Entry(ip, KICK_TIME)) && Unexpired(es[0], KICK_TIME);
    assert es[1].Ask? && es[1].now > KICK_TIME;
  }

  // With no other event, a kick or a ban is answered for exactly as long as it was imposed for.
  lemma BansLastAsImposed(e: Event, ip: Text, now: int)
    requires !e.Ask? && e.ip == ip
    ensures Scan(Run([e]), ip, now).banned <==> now <= e.now + if e.Kick? then 300 else 86400
  {
    AnswersAreExact([e], ip, now);
    assert [e][0] == e;
  }

  // ---------------------------------------------------------------- in place

  lemma ScanSkips(kept: seq<Entry>, rest: seq<Entry>, ip: Text, now: int)
    requires rest != [] && rest[0].until >= now && rest[0].ip != ip
    ensures
      var r := Scan(rest, ip, now);
      r.(entries := kept + r.entries) ==
      var r' := Scan(rest[1..], ip, now);
      r'.(entries := (kept + [rest[0]]) + r'.entries)
  {
    var r' := Scan(rest[1..], ip, now);
    assert kept + ([rest[0]] + r'.entries) == (kept + [rest[0]]) + r'.entries;
  }

  class BanList {
    var entries: seq<Entry>
    ghost var history: seq<Event>

    // The list is what the events so far have made of it.
    ghost predicate Valid()
      reads this
    {
      entries == Run(history)
    }

    constructor ()
      ensures Valid() && history == []
    {
      entries, history := [], [];
    }

    method AddKicked(ip: Text, now: int)
      requires Valid()
      modifies this
      ensures Valid() && history == old(history) + [Kick(ip, now)]
    {
      entries := entries + [Entry(ip, now + KICK_TIME)];
      history := history + [Kick(ip, now)];
    }

    method AddBanned(ip: Text, now: int)
      requires Valid()
      modifies this
      ensures Valid() && history == old(history) + [Ban(ip, now)]
    {
      entries := entries + [Entry(ip, now + BAN_TIME)];
      history := history + [Ban(ip, now)];
    }

    // The loop over the list, with its removals and its early return.
    method Search(ip: Text, now: int) returns (banned: bool)
      modifies this`entries
      ensures Scanned(entries, banned) == Scan(old(entries), ip, now)
    {
      var k := 0;
      while k < |entries|
        invariant k <= |entries|
        invariant
          var r := Scan(entries[k..], ip, now);
          r.(entries := entries[..k] + r.entries) == Scan(old(entries), ip, now)
      {
        var entry := entries[k];
        ghost var kept, rest := entries[..k], entries[k..];
        if entry.until < now {
          entries := entries[..k] + entries[k + 1..];
          assert entries[..k] == kept && entries[k..] == rest[1..];
        } else if entry.ip == ip {
          assert kept + rest == entries;
          return true;
        } else {
          ScanSkips(kept, rest, ip, now);
          k := k + 1;
          assert entries[..k] == kept + [rest[0]] && entries[k..] == rest[1..];
        }
      }
      assert entries[..k] + [] == entries;
      banned := false;
    }

    method IsBanned(ip: Text, now: int) returns (banned: bool)
      requires Valid()
      modifies this
      ensures Valid() && history == old(history) + [Ask(ip, now)]
      ensures banned ==> BannedByHistory(old(history), ip, now)
      ensures NoLaterQuestion(old(history), now) ==> (banned <==> BannedByHistory(old(history), ip, now))
    {
      NobodyIsBannedWithoutReason(history, ip, now);
      if NoLaterQuestion(history, now) { AnswersAreExact(history, ip, now); }
      banned := Search(ip, now);
      history := history + [Ask(ip, now)];
      assert history[..|history| - 1] == old(history);
    }
  }
}
