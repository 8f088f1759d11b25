/** The theme's replica against the greeter: what the page shows is what the controller holds. */
module GreeterReplica {
  import opened Prelude
  import opened Frontend
  import opened GreeterController
  import opened ThemeStore
  import Sdk

  /** The replica agrees on the conversation and on the selected session, and knows of a started login. */
  ghost predicate Follows(s: Snapshot, g: Greeter) {
    && Agrees(s, g.auth)
    && s.role.GreeterRole? && s.role.selected == g.SelectedId()
    && (g.login.Started? ==> s.role.login.Started?)
  }

  lemma {:induction false} FoldSelects(s: Snapshot, envelopes: seq<Envelope>, failure: Text)
    requires s.role.GreeterRole?
    ensures var after := Fold(s, envelopes, failure);
      && after.role.GreeterRole?
      && after.role.selected == SelectedBy(EventsOf(envelopes), s.role.selected)
      && (after.role.login == if SessionStarted in EventsOf(envelopes) then Started else s.role.login)
    decreases |envelopes|
  {
    if envelopes != [] {
      var n := |envelopes| - 1;
      FoldSelects(s, envelopes[..n], failure);
      EventsOfParts(envelopes, n);
      assert EventsOf(envelopes) == EventsOf(envelopes[..n]) + [envelopes[n].event];
    }
  }

  /** A snapshot of a settled controller agrees with it. */
  lemma SnapshotFollows(g: Greeter)
    requires g.Settled()
    ensures g.TakeSnapshot().Some? && Follows(g.TakeSnapshot().value, g)
    ensures g.TakeSnapshot().value.sequence == g.auth.next - 1
  {
  }

  /**
   * Folding any batch the greeter delivers, over a replica that follows it, gives one that follows it
   * again: same authentication state, same prompt whenever waiting, same selected session.
   */
  lemma BatchFollows(g: Greeter, request: Request, s: Snapshot, failure: Text)
    requires g.Settled() && Follows(s, g) && g.Handle(request).batch.Some?
    ensures var Handled(after, Some(batch)) := g.Handle(request);
      Follows(Fold(s, batch.events, failure), after)
  {
    var Handled(after, Some(batch)) := g.Handle(request);
    HandleAccounts(g, request);
    PublishedKeepsAgreement(s, g.auth, after.auth, batch.events, failure);
    FoldSelects(s, batch.events, failure);
  }

  /** Requests handled one after another, as long as none of them is fatal. */
  function RunAll(g: Greeter, requests: seq<Request>): Greeter
    decreases |requests|
  {
    if requests == [] then g else RunAll(g, requests[..|requests| - 1]).Handle(requests[|requests| - 1]).greeter
  }

  ghost predicate NoneFatal(g: Greeter, requests: seq<Request>)
    decreases |requests|
  {
    requests == [] ||
    (NoneFatal(g, requests[..|requests| - 1])
     && RunAll(g, requests[..|requests| - 1]).Handle(requests[|requests| - 1]).batch.Some?)
  }

  /** Everything those requests published, in order. */
  function Published(g: Greeter, requests: seq<Request>): seq<Envelope>
    decreases |requests|
  {
    if requests == [] then []
    else
      var before := RunAll(g, requests[..|requests| - 1]);
      match before.Handle(requests[|requests| - 1]).batch
      case None => Published(g, requests[..|requests| - 1])
      case Some(batch) => Published(g, requests[..|requests| - 1]) + batch.events
  }

  /**
   * From host to screen: a subscribed client that has just taken a snapshot hands every event of a
   * run of requests to the theme, and the theme's replica follows the host again.
   */
  lemma {:induction false} PageFollowsHost(g: Greeter, requests: seq<Request>, c: Sdk.Client, s: Snapshot, failure: Text)
    requires g.Settled() && NoneFatal(g, requests)
    requires Follows(s, g) && s.sequence == g.auth.next - 1
    requires c.subscribed && c.mode.GreeterMode? && c.last == s.sequence
    ensures var after, news := RunAll(g, requests), Published(g, requests);
      && after.Settled()
      && Sdk.Run(c, Sdk.Arrivals(news)).trace == c.trace + Sdk.Deliveries(news)
      && Follows(Fold(s, news, failure), after)
  {
    PublishedFollows(g, requests, s, failure);
    var news := Published(g, requests);
    forall k | 0 <= k < |news|
      ensures news[k].sequence == c.last + k + 1 <= MAX_SAFE_INTEGER && BelongsTo(GreeterMode, news[k].event)
    {
      assert EventsOf(news)[k] in EventsOf(news);
    }
    Sdk.OrderedEventsPass(c, news);
  }

  lemma NewsJoins(a: Public, b: Public, c: Public, first: seq<Envelope>, second: seq<Envelope>)
    requires Continues(a, b, first) && AllBelong(GreeterMode, EventsOf(first))
    requires Continues(b, c, second) && AllBelong(GreeterMode, EventsOf(second))
    ensures Continues(a, c, first + second) && AllBelong(GreeterMode, EventsOf(first + second))
  {
    assert EventsOf(first + second) == EventsOf(first) + EventsOf(second);
  }

  lemma {:induction false} PublishedFollows(g: Greeter, requests: seq<Request>, s: Snapshot, failure: Text)
    requires g.Settled() && NoneFatal(g, requests) && Follows(s, g)
    ensures var after, news := RunAll(g, requests), Published(g, requests);
      && after.Settled() && Follows(Fold(s, news, failure), after)
      && Continues(g.auth, after.auth, news) && AllBelong(GreeterMode, EventsOf(news))
    decreases |requests|
  {
    if requests != [] {
      var init, last := requests[..|requests| - 1], requests[|requests| - 1];
      var before, told := RunAll(g, init), Published(g, init);
      PublishedFollows(g, init, s, failure);
      HandleAccounts(before, last);
      var batch := before.Handle(last).batch.value;
      BatchFollows(before, last, Fold(s, told, failure), failure);
      FoldSplits(s, told, batch.events, failure);
      NewsJoins(g.auth, before.auth, before.Handle(last).greeter.auth, told, batch.events);
    }
  }
}
