/** Which stories are stored, read off the history alone: those posted, charged and inserted, until they
    are deleted, pruned after a day or wiped. */
module StoryHistory {
  import opened Text
  import opened SocialBudget

  /** The account after the first n events. */
  function StateAt(start: nat, es: seq<Event>, n: nat): State
    requires n <= |es|
  {
    if n == 0 then Init(start) else Next(StateAt(start, es, n - 1), es[n - 1])
  }

  lemma AfterOne(s: State, es: seq<Event>, n: nat, t: State)
    requires n < |es| && t == Next(s, es[n])
    ensures After(s, es[n..]) == After(t, es[n + 1..])
  {
    assert es[n..][1..] == es[n + 1..];
  }

  lemma {:induction false} StatesLeadToAfter(start: nat, es: seq<Event>, n: nat)
    requires n <= |es|
    ensures After(StateAt(start, es, n), es[n..]) == StateAt(start, es, |es|)
    decreases |es| - n
  {
    if n < |es| {
      AfterOne(StateAt(start, es, n), es, n, StateAt(start, es, n + 1));
      StatesLeadToAfter(start, es, n + 1);
    }
  }

  /** Event i posts this story, is charged for it and inserts it, for 24 hours. */
  predicate StoredBy(start: nat, es: seq<Event>, i: nat, st: Story)
    requires i < |es|
  {
    var now := StateAt(start, es, i).now;
    && es[i].Post? && es[i].inserted
    && |StateAt(start, es, i + 1).charges| == |StateAt(start, es, i).charges| + 1
    && st == Story(es[i].id, es[i].bytes, now, now + 24 * 3_600_000_000_000)
  }

  /** Event i deletes this story, prunes it or wipes them all. */
  predicate RemovedBy(start: nat, es: seq<Event>, i: nat, st: Story)
    requires i < |es|
  {
    || es[i] == Delete(st.id)
    || (es[i].Prune? && st.expires <= StateAt(start, es, i).now)
    || (es[i].Wipe? && es[i].storiesGone)
  }

  /** Posted by one of the first n events and by none of them removed since. */
  ghost predicate Remains(start: nat, es: seq<Event>, n: nat, st: Story)
    requires n <= |es|
  {
    exists i :: 0 <= i < n && StoredBy(start, es, i, st) && forall j :: i < j < n ==> !RemovedBy(start, es, j, st)
  }

  lemma {:induction false} KeepsExactly(stories: seq<Story>, keep: Story -> bool, st: Story)
    ensures st in Keep(stories, keep) <==> st in stories && keep(st)
  {
    if stories != [] {
      KeepsExactly(stories[1..], keep, st);
      assert st in stories <==> st == stories[0] || st in stories[1..];
    }
  }

  /** One event: what it posts is stored, what it removes is gone, and everything else stays. */
  lemma StoriesStep(start: nat, es: seq<Event>, n: nat, st: Story)
    requires n < |es|
    ensures st in StateAt(start, es, n + 1).stories <==>
            (st in StateAt(start, es, n).stories && !RemovedBy(start, es, n, st)) || StoredBy(start, es, n, st)
  {
    var s := StateAt(start, es, n);
    match es[n]
    case Delete(id) => KeepsExactly(s.stories, (x: Story) => x.id != id, st);
    case Prune => KeepsExactly(s.stories, (x: Story) => x.expires > s.now, st);
    case _ =>
  }

  lemma RemainsNext(start: nat, es: seq<Event>, n: nat, st: Story)
    requires n < |es|
    ensures Remains(start, es, n + 1, st) <==>
            (Remains(start, es, n, st) && !RemovedBy(start, es, n, st)) || StoredBy(start, es, n, st)
  {
    if Remains(start, es, n, st) && !RemovedBy(start, es, n, st) {
      var i :| 0 <= i < n && StoredBy(start, es, i, st) && forall j :: i < j < n ==> !RemovedBy(start, es, j, st);
      assert forall j :: i < j < n + 1 ==> !RemovedBy(start, es, j, st);
    }
  }

  lemma {:induction false} StoredStories(start: nat, es: seq<Event>, n: nat, st: Story)
    requires n <= |es|
    ensures st in StateAt(start, es, n).stories <==> Remains(start, es, n, st)
  {
    if n > 0 {
      StoredStories(start, es, n - 1, st);
      StoriesStep(start, es, n - 1, st);
      RemainsNext(start, es, n - 1, st);
    }
  }

  /** Main result, for every run: a story is stored if and only if it was posted, charged and inserted, and
      has neither been deleted since, nor pruned at least a day after, nor wiped. */
  lemma StoriesAreStoredExactly(start: nat, es: seq<Event>, st: Story)
    ensures st in After(Init(start), es).stories <==> Remains(start, es, |es|, st)
  {
    StatesLeadToAfter(start, es, 0);
    assert es[0..] == es;
    StoredStories(start, es, |es|, st);
  }
}
