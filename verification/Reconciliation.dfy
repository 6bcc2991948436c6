/**
 Interactions that may arrive before their content (`store_event` in app/services/event_service.py,
 `create_content`, `_resolve_pending_interactions` and `update_content_status` in
 app/api/content_routes.py).  One request is one atomic step.

 Evidence is what every reader of interactions sees: the rows that are not pending.
 */
module Reconciliation {

  /** `scored` names the interactions the stored popularity was computed from. */
  datatype Content = Content(live: bool, active: bool, scored: set<string>)

  datatype Event = Event(id: string, content: string, eventType: string)

  datatype Row = Row(event: Event, pending: bool)

  datatype Store = Store(contents: map<string, Content>, rows: map<string, Row>)

  datatype Reply = Stored | Duplicate | ContentInactive | TypeMismatch

  datatype Post =
    | PostEvent(event: Event)
    | PostContent(id: string, live: bool)
    | SetActive(id: string, active: bool)

  predicate IsLive(eventType: string) {
    |eventType| >= 5 && eventType[..5] == "LIVE_"
  }

  /** The row belongs to this content and to its domain. */
  predicate Matches(row: Row, id: string, live: bool) {
    row.event.content == id && IsLive(row.event.eventType) == live
  }

  /** The ids of the evidence about one content. */
  function EvidenceFor(rows: map<string, Row>, id: string): set<string> {
    set k | k in rows && !rows[k].pending && rows[k].event.content == id
  }

  function ReplyTo(s: Store, e: Event): Reply {
    if e.id in s.rows then Duplicate
    else if e.content !in s.contents then Stored
    else if !s.contents[e.content].active then ContentInactive
    else if IsLive(e.eventType) != s.contents[e.content].live then TypeMismatch
    else Stored
  }

  function ResolvedRow(row: Row, id: string, live: bool): Row {
    if row.pending && Matches(row, id, live) then row.(pending := false) else row
  }

  function Resolved(rows: map<string, Row>, id: string, live: bool): map<string, Row> {
    map k | k in rows :: ResolvedRow(rows[k], id, live)
  }

  function Next(s: Store, p: Post): Store {
    match p
    case PostEvent(e) =>
      if ReplyTo(s, e) != Stored then s
      else if e.content !in s.contents then s.(rows := s.rows[e.id := Row(e, true)])
      else
        var rows := s.rows[e.id := Row(e, false)];
        var c := s.contents[e.content];
        Store(if c.live then s.contents else s.contents[e.content := c.(scored := EvidenceFor(rows, e.content))], rows)
    case PostContent(id, live) =>
      if id in s.contents then s
      else Store(s.contents[id := Content(live, true, {})], Resolved(s.rows, id, live))
    case SetActive(id, active) =>
      if id !in s.contents then s else s.(contents := s.contents[id := s.contents[id].(active := active)])
  }

  /** A new content whose first commit was the last thing its request did. */
  function Unreconciled(s: Store, id: string, live: bool): Store {
    s.(contents := s.contents[id := Content(live, true, {})])
  }

  /** A new event stored by a request that died before it recomputed the popularity. */
  function Unscored(s: Store, e: Event): Store {
    s.(rows := s.rows[e.id := Row(e, e.content !in s.contents)])
  }

  const EMPTY := Store(map[], map[])

  function RunFrom(s: Store, posts: seq<Post>): Store {
    if posts == [] then s else Next(RunFrom(s, posts[..|posts| - 1]), posts[|posts| - 1])
  }

  function Run(posts: seq<Post>): Store {
    RunFrom(EMPTY, posts)
  }

  // ----- the endpoints -----

  class Database {
    var contents: map<string, Content>
    var rows: map<string, Row>

    function Value(): Store
      reads this
    {
      Store(contents, rows)
    }

    constructor ()
      ensures Value() == EMPTY
    {
      contents := map[];
      rows := map[];
    }

    /** `dies` if the process ends right after the event's own commit. */
    method StoreEvent(e: Event, dies: bool) returns (reply: Reply)
      modifies this
      ensures reply == ReplyTo(old(Value()), e)
      ensures Value() == if dies && reply == Stored then Unscored(old(Value()), e) else Next(old(Value()), PostEvent(e))
      ensures var known, unseen := e.content in old(contents), e.id !in old(rows);
        var live := |e.eventType| >= 5 && e.eventType[..5] == "LIVE_";
        && (reply == Duplicate <==> !unseen)
        && (reply == ContentInactive <==> unseen && known && !old(contents)[e.content].active)
        && (reply == TypeMismatch <==>
              unseen && known && old(contents)[e.content].active && live != old(contents)[e.content].live)
        && (reply == Stored <==>
              unseen && (known ==> old(contents)[e.content].active && live == old(contents)[e.content].live))
      ensures rows == if reply == Stored then old(rows)[e.id := Row(e, e.content !in old(contents))] else old(rows)
      ensures forall id :: id in old(contents) <==> id in contents
      ensures forall id :: id in contents ==>
        && contents[id].live == old(contents)[id].live && contents[id].active == old(contents)[id].active
        && contents[id].scored ==
             if reply == Stored && !dies && id == e.content && !contents[id].live
             then (set k | k in rows && !rows[k].pending && rows[k].event.content == id)
             else old(contents)[id].scored
    {
      if e.id in rows { return Duplicate; }
      var pending := e.content !in contents;
      if !pending {
        if !contents[e.content].active { return ContentInactive; }
        if IsLive(e.eventType) != contents[e.content].live { return TypeMismatch; }
      }
      rows := rows[e.id := Row(e, pending)];
      if dies { return Stored; }
      if !pending && !contents[e.content].live {
        contents := contents[e.content := contents[e.content].(scored := EvidenceFor(rows, e.content))];
      }
      return Stored;
    }

    /** `dies` if the process ends between the content's commit and the reconciliation. */
    method CreateContent(id: string, live: bool, dies: bool) returns (created: bool)
      modifies this
      ensures created == (id !in old(contents))
      ensures Value() ==
        if dies && created then Unreconciled(old(Value()), id, live) else Next(old(Value()), PostContent(id, live))
      ensures contents == if created then old(contents)[id := Content(live, true, {})] else old(contents)
      ensures rows.Keys == old(rows).Keys && forall k :: k in rows ==>
        && rows[k].event == old(rows)[k].event
        && rows[k].pending == (old(rows)[k].pending
             && !(created && !dies && rows[k].event.content == id && IsLive(rows[k].event.eventType) == live))
    {
      if id in contents { return false; }
      contents := contents[id := Content(live, true, {})];
      if dies { return true; }
      ResolvePending(id);
      return true;
    }

    /** Clears the pending flag of every waiting row of this content's own domain. */
    method ResolvePending(id: string)
      requires id in contents
      modifies this`rows
      ensures rows == Resolved(old(rows), id, contents[id].live)
    {
      var live := contents[id].live;
      ghost var before := rows;
      var waiting := set k | k in rows && rows[k].pending && rows[k].event.content == id;
      while waiting != {}
        invariant rows.Keys == before.Keys && waiting <= rows.Keys
        invariant forall k | k in waiting :: before[k].pending && before[k].event.content == id
        invariant forall k | k in rows ::
          rows[k] == if k in waiting then before[k] else ResolvedRow(before[k], id, live)
        decreases waiting
      {
        var k :| k in waiting;
        if IsLive(rows[k].event.eventType) == live {
          rows := rows[k := rows[k].(pending := false)];
        }
        waiting := waiting - {k};
      }
    }

    method UpdateStatus(id: string, active: bool) returns (found: bool)
      modifies this`contents
      ensures found == (id in old(contents))
      ensures Value() == Next(old(Value()), SetActive(id, active))
      ensures rows == old(rows)
      ensures contents == if found then old(contents)[id := old(contents)[id].(active := active)] else old(contents)
    {
      if id !in contents { return false; }
      contents := contents[id := contents[id].(active := active)];
      return true;
    }
  }

  // ----- in every reachable state -----

  /** A row is pending exactly while its content is unknown or of the other domain. */
  ghost predicate Settled(s: Store) {
    forall k | k in s.rows ::
      && s.rows[k].event.id == k
      && (s.rows[k].pending <==>
            !(s.rows[k].event.content in s.contents
              && Matches(s.rows[k], s.rows[k].event.content, s.contents[s.rows[k].event.content].live)))
  }

  lemma SettledStep(s: Store, p: Post)
    requires Settled(s)
    ensures Settled(Next(s, p))
  {
    var t := Next(s, p);
    if p.PostEvent? && t != s {
      assert forall k | k in s.rows :: k != p.event.id && t.rows[k] == s.rows[k];
    }
  }

  lemma {:induction false} AlwaysSettled(posts: seq<Post>)
    ensures Settled(Run(posts))
  {
    if posts != [] {
      AlwaysSettled(posts[..|posts| - 1]);
      SettledStep(Run(posts[..|posts| - 1]), posts[|posts| - 1]);
    }
  }

  /** Rows are never lost or rewritten, the flag never goes back to pending, and a content never
      disappears or changes domain. */
  lemma {:induction false} NothingIsForgotten(posts: seq<Post>, n: nat)
    requires n <= |posts|
    ensures var s, t := Run(posts[..n]), Run(posts);
      && (forall k | k in s.rows :: k in t.rows && t.rows[k].event == s.rows[k].event
                                    && (!s.rows[k].pending ==> !t.rows[k].pending))
      && (forall id | id in s.contents :: id in t.contents && t.contents[id].live == s.contents[id].live)
  {
    if n < |posts| {
      var before := posts[..|posts| - 1];
      NothingIsForgotten(before, n);
      assert before[..n] == posts[..n];
    } else {
      assert posts[..n] == posts;
    }
  }

  /** Reconciling again changes nothing, for any content, at any time. */
  lemma ReconcilingAgainChangesNothing(posts: seq<Post>, id: string)
    requires id in Run(posts).contents
    ensures Resolved(Run(posts).rows, id, Run(posts).contents[id].live) == Run(posts).rows
  {
    AlwaysSettled(posts);
  }

  // ----- deactivation -----

  lemma StatusIsSet(s: Store, id: string, active: bool)
    requires id in s.contents
    ensures var t := Next(s, SetActive(id, active));
      id in t.contents && t.contents[id].active == active && t.rows == s.rows && t.contents[id].scored == s.contents[id].scored
  {
  }

  /** From a deactivation of a content until its next reactivation no new event for it is stored, and
      neither its evidence nor its popularity changes; what was stored before stays. */
  lemma {:induction false} InactiveTakesNothing(s: Store, more: seq<Post>, id: string)
    requires id in s.contents && forall p :: p in more ==> p != SetActive(id, true)
    ensures var t, u := Next(s, SetActive(id, false)), RunFrom(Next(s, SetActive(id, false)), more);
      && (forall k :: k in u.rows && u.rows[k].event.content == id <==> k in s.rows && s.rows[k].event.content == id)
      && (forall k :: k in s.rows && s.rows[k].event.content == id ==> u.rows[k] == s.rows[k])
      && id in u.contents && !u.contents[id].active && u.contents[id].scored == s.contents[id].scored
  {
    var t := Next(s, SetActive(id, false));
    StatusIsSet(s, id, false);
    if more != [] {
      var before, last := more[..|more| - 1], more[|more| - 1];
      assert more == before + [last] && last in more;
      assert forall p :: p in before ==> p in more;
      InactiveTakesNothing(s, before, id);
      InactiveStep(RunFrom(t, before), last, id);
    }
  }

  lemma InactiveStep(s: Store, p: Post, id: string)
    requires id in s.contents && !s.contents[id].active && p != SetActive(id, true)
    ensures var t := Next(s, p);
      && (forall k :: k in t.rows && t.rows[k].event.content == id <==> k in s.rows && s.rows[k].event.content == id)
      && (forall k :: k in s.rows && s.rows[k].event.content == id ==> t.rows[k] == s.rows[k])
      && id in t.contents && !t.contents[id].active && t.contents[id].scored == s.contents[id].scored
  {
  }

  /** A new event for a content is stored, whatever the store, exactly if the content is unknown, or
      active and of the event's domain. */
  lemma NewEventIsStoredIff(s: Store, e: Event)
    requires e.id !in s.rows
    ensures e.id in Next(s, PostEvent(e)).rows <==>
      (e.content in s.contents ==> s.contents[e.content].active && s.contents[e.content].live == IsLive(e.eventType))
  {
  }

  // ----- convergence -----

  function EventsOf(posts: seq<Post>): set<Event> {
    set p | p in posts && p.PostEvent? :: p.event
  }

  /** The contents posted, each with its domain. */
  function ContentsOf(posts: seq<Post>): set<(string, bool)> {
    set p | p in posts && p.PostContent? :: (p.id, p.live)
  }

  /** Deliveries may repeat, but an id always comes with the same payload; nothing is deactivated. */
  ghost predicate Consistent(posts: seq<Post>) {
    && (forall p | p in posts :: !p.SetActive?)
    && (forall p, q | p in posts && q in posts && p.PostEvent? && q.PostEvent? && p.event.id == q.event.id :: p == q)
    && (forall p, q | p in posts && q in posts && p.PostContent? && q.PostContent? && p.id == q.id :: p == q)
  }

  function Evidence(s: Store): set<Event> {
    set k | k in s.rows && !s.rows[k].pending :: s.rows[k].event
  }

  /** The evidence a set of posts amounts to, in no order: an event whose content was posted too,
      in the event's own domain. */
  function Warranted(events: set<Event>, contents: set<(string, bool)>): set<Event> {
    set e | e in events && (e.content, IsLive(e.eventType)) in contents
  }

  /** The known contents are those posted. */
  ghost predicate KnowsContents(s: Store, posts: seq<Post>) {
    && (forall id | id in s.contents :: s.contents[id].active && PostContent(id, s.contents[id].live) in posts)
    && (forall p | p in posts && p.PostContent? :: p.id in s.contents)
  }

  /** The rows are events posted, and an event posted is stored unless its content refused it. */
  ghost predicate KnowsEvents(s: Store, posts: seq<Post>) {
    && (forall k | k in s.rows :: PostEvent(s.rows[k].event) in posts)
    && (forall p | p in posts && p.PostEvent? :: p.event.id in s.rows || Refused(s, p.event))
  }

  predicate Refused(s: Store, e: Event) {
    e.content in s.contents && s.contents[e.content].live != IsLive(e.eventType)
  }

  lemma EventKeepsContents(s: Store, posts: seq<Post>, e: Event)
    requires KnowsContents(s, posts)
    ensures KnowsContents(Next(s, PostEvent(e)), posts + [PostEvent(e)])
    ensures forall f: Event | Refused(s, f) :: Refused(Next(s, PostEvent(e)), f)
  {
    var t := Next(s, PostEvent(e));
    assert t.contents.Keys == s.contents.Keys;
    assert forall id | id in s.contents ::
      t.contents[id].live == s.contents[id].live && t.contents[id].active == s.contents[id].active;
  }

  lemma KnowsAnEvent(s: Store, posts: seq<Post>, e: Event)
    requires KnowsContents(s, posts) && KnowsEvents(s, posts)
    ensures KnowsEvents(Next(s, PostEvent(e)), posts + [PostEvent(e)])
  {
    var t := Next(s, PostEvent(e));
    EventKeepsContents(s, posts, e);
    if ReplyTo(s, e) == Stored {
      assert t.rows.Keys == s.rows.Keys + {e.id} && t.rows[e.id].event == e;
      assert forall k | k in s.rows :: t.rows[k] == s.rows[k];
    } else {
      assert e.id in s.rows || Refused(s, e);
    }
  }

  lemma KnowsAContent(s: Store, posts: seq<Post>, id: string, live: bool)
    requires KnowsContents(s, posts) && KnowsEvents(s, posts)
    ensures KnowsContents(Next(s, PostContent(id, live)), posts + [PostContent(id, live)])
    ensures KnowsEvents(Next(s, PostContent(id, live)), posts + [PostContent(id, live)])
  {
    var t := Next(s, PostContent(id, live));
    assert t.rows.Keys == s.rows.Keys;
    assert forall k | k in s.rows :: t.rows[k].event == s.rows[k].event;
    assert forall f: Event | Refused(s, f) :: Refused(t, f);
  }

  lemma {:induction false} StoreKnowsPosts(posts: seq<Post>)
    requires forall p | p in posts :: !p.SetActive?
    ensures KnowsContents(Run(posts), posts) && KnowsEvents(Run(posts), posts)
  {
    if posts != [] {
      var before, p := posts[..|posts| - 1], posts[|posts| - 1];
      assert posts == before + [p] && p in posts;
      StoreKnowsPosts(before);
      match p
      case PostEvent(e) =>
        EventKeepsContents(Run(before), before, e);
        KnowsAnEvent(Run(before), before, e);
      case PostContent(id, live) => KnowsAContent(Run(before), before, id, live);
      case SetActive(_, _) => assert false;
    }
  }

  /** Whatever the order of arrival, and however often each post is delivered, the evidence is the
      warranted set: a late content releases exactly the events that waited for it. */
  lemma EvidenceIsWarranted(posts: seq<Post>)
    requires Consistent(posts)
    ensures Evidence(Run(posts)) == Warranted(EventsOf(posts), ContentsOf(posts))
  {
    var s := Run(posts);
    StoreKnowsPosts(posts);
    AlwaysSettled(posts);
    forall e | e in Evidence(s) ensures e in Warranted(EventsOf(posts), ContentsOf(posts)) {
      var k :| k in s.rows && !s.rows[k].pending && s.rows[k].event == e;
      assert PostEvent(e) in posts;
      assert PostContent(e.content, s.contents[e.content].live) in posts;
    }
    forall e | e in Warranted(EventsOf(posts), ContentsOf(posts)) ensures e in Evidence(s) {
      var p :| p in posts && p.PostEvent? && p.event == e;
      var q :| q in posts && q.PostContent? && (q.id, q.live) == (e.content, IsLive(e.eventType));
      assert PostContent(q.id, s.contents[q.id].live) in posts;
      assert s.contents[e.content].live == q.live;
      assert PostEvent(s.rows[e.id].event) in posts;
      assert s.rows[e.id].event == e;
    }
  }

  /** Convergence: two histories of the same posts, in any order and multiplicity, agree. */
  lemma ArrivalOrderDoesNotMatter(posts: seq<Post>, others: seq<Post>)
    requires Consistent(posts) && forall p :: p in posts <==> p in others
    ensures Evidence(Run(posts)) == Evidence(Run(others))
  {
    EvidenceIsWarranted(posts);
    EvidenceIsWarranted(others);
    assert EventsOf(posts) == EventsOf(others);
    assert ContentsOf(posts) == ContentsOf(others);
  }

  /** Some delivery of the event comes before any post of its content. */
  ghost predicate ComesEarly(posts: seq<Post>, e: Event) {
    exists i :: 0 <= i < |posts| && posts[i] == PostEvent(e) && !Announced(posts[..i], e.content)
  }

  predicate Announced(posts: seq<Post>, id: string) {
    exists p :: p in posts && p.PostContent? && p.id == id
  }

  lemma {:induction false} KnownIffAnnounced(posts: seq<Post>, id: string)
    ensures id in Run(posts).contents <==> Announced(posts, id)
  {
    if posts != [] {
      var before, last := posts[..|posts| - 1], posts[|posts| - 1];
      assert posts == before + [last];
      KnownIffAnnounced(before, id);
      assert Announced(before, id) ==> Announced(posts, id);
      if last.PostContent? && last.id == id { assert last in posts; }
      if Announced(posts, id) && !Announced(before, id) {
        var p :| p in posts && p.PostContent? && p.id == id;
        assert p == last;
      }
    }
  }

  /** The posts may come again and again, contents may be deactivated, but the event's id stands for
      this event and its content has the other domain. */
  ghost predicate Mismatched(posts: seq<Post>, e: Event) {
    && (forall p | p in posts && p.PostEvent? && p.event.id == e.id :: p.event == e)
    && (forall p | p in posts && p.PostContent? && p.id == e.content :: p.live != IsLive(e.eventType))
  }

  lemma EarlyOrLast(posts: seq<Post>, e: Event)
    requires posts != []
    ensures var before, last := posts[..|posts| - 1], posts[|posts| - 1];
      ComesEarly(posts, e) <==> ComesEarly(before, e) || (last == PostEvent(e) && !Announced(before, e.content))
  {
    var before, n := posts[..|posts| - 1], |posts| - 1;
    forall i | 0 <= i < n ensures before[..i] == posts[..i] && before[i] == posts[i] {}
    if ComesEarly(before, e) {
      var i :| 0 <= i < |before| && before[i] == PostEvent(e) && !Announced(before[..i], e.content);
      assert posts[i] == PostEvent(e) && !Announced(posts[..i], e.content);
    }
    if posts[n] == PostEvent(e) && !Announced(before, e.content) {
      assert !Announced(posts[..n], e.content);
    }
  }

  /** What does depend on the order is whether a wrong-domain event is kept: over every history it is
      stored exactly if it is delivered before its content is posted, and then stays pending. */
  lemma {:induction false} MismatchIsStoredIffEarly(posts: seq<Post>, e: Event)
    requires Mismatched(posts, e)
    ensures e.id in Run(posts).rows <==> ComesEarly(posts, e)
    ensures e.id in Run(posts).rows ==> Run(posts).rows[e.id] == Row(e, true)
  {
    if posts != [] {
      var before, last := posts[..|posts| - 1], posts[|posts| - 1];
      assert posts == before + [last];
      MismatchIsStoredIffEarly(before, e);
      EarlyOrLast(posts, e);
      KnownIffAnnounced(before, e.content);
      DomainIsAnnounced(before, e.content);
      assert last in posts;
    }
  }

  lemma {:induction false} DomainIsAnnounced(posts: seq<Post>, id: string)
    ensures id in Run(posts).contents ==> PostContent(id, Run(posts).contents[id].live) in posts
  {
    if posts != [] { DomainIsAnnounced(posts[..|posts| - 1], id); }
  }

  // ----- a request that dies between its commits -----

  function EvidenceIds(s: Store): set<string> {
    set k | k in s.rows && !s.rows[k].pending
  }

  /** The rows a new content would release. */
  function Waiting(s: Store, id: string, live: bool): set<string> {
    set k | k in s.rows && s.rows[k].pending && Matches(s.rows[k], id, live)
  }

  /** The same store but for some rows of known contents, which are pending in `u` only. */
  ghost predicate Trails(u: Store, t: Store, lost: set<string>) {
    && u.contents.Keys == t.contents.Keys
    && (forall id | id in t.contents :: u.contents[id].live == t.contents[id].live && u.contents[id].active == t.contents[id].active)
    && u.rows.Keys == t.rows.Keys
    && (forall k | k in t.rows :: u.rows[k].event == t.rows[k].event && (u.rows[k].pending <==> t.rows[k].pending || k in lost))
    && (forall k | k in lost :: k in t.rows && !t.rows[k].pending && t.rows[k].event.content in t.contents)
  }

  lemma TrailsStep(u: Store, t: Store, lost: set<string>, p: Post)
    requires Trails(u, t, lost)
    ensures Trails(Next(u, p), Next(t, p), lost)
  {
    match p
    case PostEvent(e) => TrailsAfterEvent(u, t, lost, e);
    case PostContent(id, live) => TrailsAfterContent(u, t, lost, id, live);
    case SetActive(id, active) =>
  }

  lemma TrailsAfterEvent(u: Store, t: Store, lost: set<string>, e: Event)
    requires Trails(u, t, lost)
    ensures Trails(Next(u, PostEvent(e)), Next(t, PostEvent(e)), lost)
  {
    assert ReplyTo(u, e) == ReplyTo(t, e);
  }

  lemma TrailsAfterContent(u: Store, t: Store, lost: set<string>, id: string, live: bool)
    requires Trails(u, t, lost)
    ensures Trails(Next(u, PostContent(id, live)), Next(t, PostContent(id, live)), lost)
  {
  }

  lemma {:induction false} TrailsThroughout(u: Store, t: Store, lost: set<string>, more: seq<Post>)
    requires Trails(u, t, lost)
    ensures Trails(RunFrom(u, more), RunFrom(t, more), lost)
  {
    if more != [] {
      var before := more[..|more| - 1];
      TrailsThroughout(u, t, lost, before);
      TrailsStep(RunFrom(u, before), RunFrom(t, before), lost, more[|more| - 1]);
    }
  }

  /** A content request that dies between its two commits loses, for good, exactly the events that
      were waiting for that content: whatever is posted afterwards, the same content included, the
      evidence is what it would have been without them. */
  lemma CutLosesExactlyTheWaiting(s: Store, id: string, live: bool, more: seq<Post>)
    requires id !in s.contents
    ensures var u, t := RunFrom(Unreconciled(s, id, live), more), RunFrom(Next(s, PostContent(id, live)), more);
      && Waiting(s, id, live) <= EvidenceIds(t)
      && EvidenceIds(u) == EvidenceIds(t) - Waiting(s, id, live)
      && (EvidenceIds(u) == EvidenceIds(t) <==> Waiting(s, id, live) == {})
  {
    var lost := Waiting(s, id, live);
    var cut, whole := Unreconciled(s, id, live), Next(s, PostContent(id, live));
    TrailsThroughout(cut, whole, lost, more);
    var u, t := RunFrom(cut, more), RunFrom(whole, more);
    if lost != {} {
      var k :| k in lost;
      assert k in EvidenceIds(t) && k !in EvidenceIds(u);
    }
  }

  /** A post, and whether its request dies right after its first commit. */
  datatype Handled = Handled(post: Post, dies: bool)

  function Handle(s: Store, x: Handled): Store {
    if !x.dies then Next(s, x.post)
    else
      match x.post
      case PostEvent(e) => if ReplyTo(s, e) == Stored then Unscored(s, e) else s
      case PostContent(id, live) => if id in s.contents then s else Unreconciled(s, id, live)
      case SetActive(_, _) => Next(s, x.post)
  }

  function HandleAll(xs: seq<Handled>): Store {
    if xs == [] then EMPTY else Handle(HandleAll(xs[..|xs| - 1]), xs[|xs| - 1])
  }

  function PostsOf(xs: seq<Handled>): seq<Post> {
    if xs == [] then [] else PostsOf(xs[..|xs| - 1]) + [xs[|xs| - 1].post]
  }

  /** The events that were waiting for a content when its request died. */
  function Lost(xs: seq<Handled>): set<string> {
    if xs == [] then {}
    else
      var before, last := xs[..|xs| - 1], xs[|xs| - 1];
      Lost(before) +
        if last.dies && last.post.PostContent? && last.post.id !in HandleAll(before).contents
        then Waiting(HandleAll(before), last.post.id, last.post.live) else {}
  }

  lemma CutEventTrails(u: Store, t: Store, lost: set<string>, e: Event)
    requires Trails(u, t, lost)
    ensures Trails(Handle(u, Handled(PostEvent(e), true)), Next(t, PostEvent(e)), lost)
  {
    assert ReplyTo(u, e) == ReplyTo(t, e);
  }

  lemma CutContentTrails(u: Store, t: Store, lost: set<string>, id: string, live: bool)
    requires Trails(u, t, lost) && id !in u.contents
    ensures Trails(Unreconciled(u, id, live), Next(t, PostContent(id, live)), lost + Waiting(u, id, live))
  {
  }

  lemma {:induction false} HandledTrails(xs: seq<Handled>)
    ensures Trails(HandleAll(xs), Run(PostsOf(xs)), Lost(xs))
  {
    if xs != [] {
      var before, last := xs[..|xs| - 1], xs[|xs| - 1];
      HandledTrails(before);
      assert PostsOf(xs)[..|PostsOf(before)|] == PostsOf(before);
      TrailsStep(HandleAll(before), Run(PostsOf(before)), Lost(before), last.post);
      match last.post
      case PostEvent(e) => CutEventTrails(HandleAll(before), Run(PostsOf(before)), Lost(before), e);
      case PostContent(id, live) =>
        if id !in HandleAll(before).contents {
          CutContentTrails(HandleAll(before), Run(PostsOf(before)), Lost(before), id, live);
        }
      case SetActive(_, _) =>
    }
  }

  /** With any of the requests dying between its commits, the evidence is the warranted set without
      the events that were waiting at a cut: whatever the order of arrival, nothing else is lost. */
  lemma CutsLoseExactlyTheWaiting(xs: seq<Handled>)
    requires Consistent(PostsOf(xs))
    ensures var posts := PostsOf(xs);
      Evidence(HandleAll(xs)) == set e | e in Warranted(EventsOf(posts), ContentsOf(posts)) && e.id !in Lost(xs)
  {
    var posts := PostsOf(xs);
    var u, t := HandleAll(xs), Run(posts);
    HandledTrails(xs);
    AlwaysSettled(posts);
    EvidenceIsWarranted(posts);
    forall e ensures e in Evidence(u) <==> e in Evidence(t) && e.id !in Lost(xs) {
      if e in Evidence(u) {
        var k :| k in u.rows && !u.rows[k].pending && u.rows[k].event == e;
        assert t.rows[k].event == e && k == e.id;
      }
      if e in Evidence(t) && e.id !in Lost(xs) {
        var k :| k in t.rows && !t.rows[k].pending && t.rows[k].event == e;
        assert k == e.id && u.rows[k].event == e && !u.rows[k].pending;
      }
    }
  }

  // ----- popularity -----

  /** The stored popularity was computed from all the evidence there is. */
  predicate Fresh(s: Store, id: string)
    requires id in s.contents
  {
    s.contents[id].scored == EvidenceFor(s.rows, id)
  }

  /** Some of the posts stored a new event directly against the content. */
  predicate Rescored(s: Store, posts: seq<Post>, id: string) {
    posts != []
    && var before, p := posts[..|posts| - 1], posts[|posts| - 1];
       Rescored(s, before, id)
       || (p.PostEvent? && p.event.content == id && ReplyTo(RunFrom(s, before), p.event) == Stored)
  }

  lemma FreshStep(s: Store, p: Post, id: string)
    requires Settled(s) && id in s.contents && !s.contents[id].live
    ensures var t := Next(s, p);
      && Settled(t) && id in t.contents && !t.contents[id].live
      && (Fresh(t, id) <==>
            Fresh(s, id) || (p.PostEvent? && p.event.content == id && ReplyTo(s, p.event) == Stored))
  {
    var t := Next(s, p);
    SettledStep(s, p);
    if !(p.PostEvent? && p.event.content == id && ReplyTo(s, p.event) == Stored) {
      assert EvidenceFor(t.rows, id) == EvidenceFor(s.rows, id);
    }
  }

  lemma {:induction false} FreshAfterMore(s: Store, posts: seq<Post>, id: string)
    requires Settled(s) && id in s.contents && !s.contents[id].live
    ensures var t := RunFrom(s, posts);
      && Settled(t) && id in t.contents && !t.contents[id].live
      && (Fresh(t, id) <==> Fresh(s, id) || Rescored(s, posts, id))
  {
    if posts != [] {
      FreshAfterMore(s, posts[..|posts| - 1], id);
      FreshStep(RunFrom(s, posts[..|posts| - 1]), posts[|posts| - 1], id);
    }
  }

  /** Reconciliation does not recompute popularity: after a VIDEO content arrives, its popularity
      reflects all its evidence exactly if no event had been waiting for it, or a new event has been
      stored against it since. */
  lemma PopularityIsFreshIff(posts: seq<Post>, id: string, more: seq<Post>)
    requires id !in Run(posts).contents
    ensures var s := Run(posts);
      var t := Next(s, PostContent(id, false));
      var u := RunFrom(t, more);
      && id in u.contents
      && (Fresh(u, id) <==> (forall k | k in s.rows :: !Matches(s.rows[k], id, false)) || Rescored(t, more, id))
  {
    var s := Run(posts);
    var t := Next(s, PostContent(id, false));
    AlwaysSettled(posts);
    assert Settled(t);
    forall k | k in s.rows ensures k in EvidenceFor(t.rows, id) <==> Matches(s.rows[k], id, false) {}
    assert Fresh(t, id) <==> EvidenceFor(t.rows, id) == {};
    FreshAfterMore(t, more, id);
  }

  /** Popularity is only ever computed from stored events. */
  ghost predicate ScoresWhatIsStored(s: Store) {
    forall id | id in s.contents :: s.contents[id].scored <= s.rows.Keys
  }

  lemma {:induction false} AlwaysScoresWhatIsStored(posts: seq<Post>)
    ensures ScoresWhatIsStored(Run(posts))
  {
    if posts != [] { AlwaysScoresWhatIsStored(posts[..|posts| - 1]); }
  }

  /** An event request that dies between its two commits leaves its VIDEO content with a popularity
      that misses the event until the next new event is stored against it. */
  lemma UnscoredUntilTheNextEvent(posts: seq<Post>, e: Event, more: seq<Post>)
    requires var s := Run(posts);
      ReplyTo(s, e) == Stored && e.content in s.contents && !s.contents[e.content].live
    ensures var u := Unscored(Run(posts), e);
      var v := RunFrom(u, more);
      e.content in v.contents && (Fresh(v, e.content) <==> Rescored(u, more, e.content))
  {
    var s := Run(posts);
    AlwaysSettled(posts);
    SettledStep(s, PostEvent(e));
    AlwaysScoresWhatIsStored(posts);
    var u := Unscored(s, e);
    assert u.rows == Next(s, PostEvent(e)).rows && Settled(u);
    assert e.id in EvidenceFor(u.rows, e.content) && e.id !in u.contents[e.content].scored;
    FreshAfterMore(u, more, e.content);
  }
}
