/**
 The stable-read protocol of the model cache (app/ml/model_cache.py, `load_validated` in
 app/ml/model_store.py) while another process replaces the files.

 The disk is a function of time.  Every single look at a file is at an instant of its own, and
 between two of them anything can happen to the files.  A file is known by its stamp, its
 modification time and size, and a rename keeps both.
 */
module ModelCache {
  import opened Basics
  import opened ScopedModel

  const MAX_LOAD_ATTEMPTS := 3

  type Files = map<Location, File>
  type History = nat -> Files

  function StampAt(h: History, l: Location, t: nat): Option<nat> {
    if l in h(t) then Some(h(t)[l].stamp) else None
  }

  /** The content of one file at one instant. */
  function ContentAt(h: History, l: Location, t: nat): Option<Content> {
    if l in h(t) then Some(h(t)[l].content) else None
  }

  /** What loading the pair would give if the disk stood still at `t`. */
  function LoadAt(h: History, key: Scope, t: nat): Option<Artifact> {
    Load(Contents(h(t)), key)
  }

  predicate PresentAt(h: History, key: Scope, t: nat) {
    key.model in h(t) && key.metadata in h(t)
  }

  // ----- what stamps tell -----

  predicate SameIfStamped(h: History, l: Location, i: nat, j: nat) {
    l in h(i) && l in h(j) && h(i)[l].stamp == h(j)[l].stamp ==> h(i)[l] == h(j)[l]
  }

  predicate Steady(h: History, l: Location, i: nat, j: nat, k: nat) {
    l in h(i) && l in h(j) && h(i)[l].stamp == h(j)[l].stamp ==> l in h(k) && h(k)[l] == h(i)[l]
  }

  /** A stamp names one model file, which may go away and come back, as a rollback brings it back.  A
      metadata file is always newly written: its stamp is never met again once it has been replaced. */
  ghost predicate StampsTell(h: History, key: Scope) {
    && (forall i: nat, j: nat :: SameIfStamped(h, key.model, i, j))
    && (forall i: nat, j: nat, k: nat :: i <= k <= j ==> Steady(h, key.metadata, i, j, k))
  }

  lemma MetadataStays(h: History, key: Scope, i: nat, j: nat, k: nat)
    requires StampsTell(h, key) && i <= k <= j
    requires StampAt(h, key.metadata, i).Some? && StampAt(h, key.metadata, i) == StampAt(h, key.metadata, j)
    ensures key.metadata in h(i) && key.metadata in h(k) && h(k)[key.metadata] == h(i)[key.metadata]
  {
    assert Steady(h, key.metadata, i, j, k);
  }

  lemma SameModel(h: History, key: Scope, i: nat, j: nat)
    requires StampsTell(h, key) && StampAt(h, key.model, i) == StampAt(h, key.model, j)
    ensures ContentAt(h, key.model, i) == ContentAt(h, key.model, j)
  {
    assert SameIfStamped(h, key.model, i, j);
  }

  // ----- one load, one turn, one call -----

  datatype Read = Gone | Bad | Good(artifact: Artifact, metadata: File)

  /** `load_validated` as it runs, from instant `t` on: it checks that both files exist, reads the
      metadata, hashes the model and deserializes the model, one after the other. */
  function LoadFrom(h: History, key: Scope, t: nat): Read {
    if key.model !in h(t) || key.metadata !in h(t + 1) then Gone
    else if key.metadata !in h(t + 2) then Bad
    else
      var metadata := h(t + 2)[key.metadata];
      match metadata.content
      case Metadata(checksum, compatible) =>
        if compatible && ContentAt(h, key.model, t + 3) == Some(Model(checksum)) then
          match ContentAt(h, key.model, t + 4)
          case Some(Model(artifact)) => Good(artifact, metadata)
          case _ => Bad
        else Bad
      case _ => Bad
  }

  /** The model with the metadata it came with. */
  datatype Reply = Found(artifact: Artifact, metadata: File) | NotFound | Refused | Busy

  datatype Kept = Kept(modelStamp: nat, metadataStamp: nat, artifact: Artifact, metadata: File)

  /** The answer of one turn of the loop, None to go round again; the cache and the clock after it. */
  datatype Turned = Turned(reply: Option<Reply>, kept: map<Scope, Kept>, now: nat)

  /** The signatures taken at `t` and `t + 1` and again at `t + 7` and `t + 8` agree. */
  predicate Stable(h: History, key: Scope, t: nat) {
    && StampAt(h, key.model, t).Some? && StampAt(h, key.model, t) == StampAt(h, key.model, t + 7)
    && StampAt(h, key.metadata, t + 1).Some? && StampAt(h, key.metadata, t + 1) == StampAt(h, key.metadata, t + 8)
  }

  predicate Hits(h: History, key: Scope, kept: map<Scope, Kept>, t: nat) {
    && key in kept
    && StampAt(h, key.model, t) == Some(kept[key].modelStamp)
    && StampAt(h, key.metadata, t + 1) == Some(kept[key].metadataStamp)
  }

  function KeptFrom(h: History, key: Scope, t: nat, artifact: Artifact, metadata: File): Kept
    requires Stable(h, key, t)
  {
    Kept(StampAt(h, key.model, t).value, StampAt(h, key.metadata, t + 1).value, artifact, metadata)
  }

  function Turn(h: History, key: Scope, kept: map<Scope, Kept>, t: nat): Turned {
    if StampAt(h, key.model, t).None? || StampAt(h, key.metadata, t + 1).None? then
      Turned(Some(NotFound), kept - {key}, t + 2)
    else if Hits(h, key, kept, t) then Turned(Some(Found(kept[key].artifact, kept[key].metadata)), kept, t + 2)
    else if !Stable(h, key, t) then Turned(None, kept, t + 9)
    else
      match LoadFrom(h, key, t + 2)
      case Gone => Turned(Some(NotFound), kept, t + 9)
      case Bad => Turned(Some(Refused), kept, t + 9)
      case Good(artifact, metadata) =>
        Turned(Some(Found(artifact, metadata)), kept[key := KeptFrom(h, key, t, artifact, metadata)], t + 9)
  }

  datatype Got = Got(reply: Reply, kept: map<Scope, Kept>, now: nat)

  function Calls(h: History, key: Scope, kept: map<Scope, Kept>, t: nat, attempts: nat): Got
    decreases attempts
  {
    if attempts == 0 then Got(Busy, kept, t)
    else
      var turn := Turn(h, key, kept, t);
      if turn.reply.Some? then Got(turn.reply.value, turn.kept, turn.now)
      else Calls(h, key, turn.kept, turn.now, attempts - 1)
  }

  class Cache {
    var entries: map<Scope, Kept>
    var now: nat

    constructor (now: nat)
      ensures entries == map[] && this.now == now
    {
      entries, this.now := map[], now;
    }

    /** `_signature`: two looks, one after the other. */
    method Signature(h: History, key: Scope) returns (model: Option<nat>, metadata: Option<nat>)
      modifies this`now
      ensures now == old(now) + 2
      ensures model == StampAt(h, key.model, old(now)) && metadata == StampAt(h, key.metadata, old(now) + 1)
    {
      model := StampAt(h, key.model, now);
      now := now + 1;
      metadata := StampAt(h, key.metadata, now);
      now := now + 1;
    }

    /** One turn of the loop in `get`. */
    method Attempt(h: History, key: Scope) returns (r: Option<Reply>)
      modifies this
      ensures Turned(r, entries, now) == Turn(h, key, old(entries), old(now))
    {
      var model, metadata := Signature(h, key);
      if model.None? || metadata.None? {
        entries := entries - {key};
        return Some(NotFound);
      }
      if key in entries && entries[key].modelStamp == model.value && entries[key].metadataStamp == metadata.value {
        return Some(Found(entries[key].artifact, entries[key].metadata));
      }
      var read := LoadFrom(h, key, now);
      now := now + 5;
      var modelAfter, metadataAfter := Signature(h, key);
      if modelAfter != model || metadataAfter != metadata {
        return None;
      }
      match read
      case Gone => return Some(NotFound);
      case Bad => return Some(Refused);
      case Good(artifact, loaded) =>
        entries := entries[key := Kept(model.value, metadata.value, artifact, loaded)];
        return Some(Found(artifact, loaded));
    }

    method Get(h: History, key: Scope) returns (r: Reply)
      modifies this
      ensures Got(r, entries, now) == Calls(h, key, old(entries), old(now), MAX_LOAD_ATTEMPTS)
    {
      for attempt := 0 to MAX_LOAD_ATTEMPTS
        invariant Calls(h, key, entries, now, MAX_LOAD_ATTEMPTS - attempt)
                  == Calls(h, key, old(entries), old(now), MAX_LOAD_ATTEMPTS)
      {
        var answer := Attempt(h, key);
        if answer.Some? {
          return answer.value;
        }
      }
      r := Busy;
    }
  }

  // ----- what an answer is worth -----

  /** The answer is what the disk says at `t`: the model and the metadata are there together. */
  predicate TrueAt(h: History, key: Scope, r: Reply, t: nat) {
    match r
    case Found(artifact, metadata) =>
      key.metadata in h(t) && h(t)[key.metadata] == metadata && LoadAt(h, key, t) == Some(artifact)
    case NotFound => !PresentAt(h, key, t)
    case Refused => LoadAt(h, key, t) == None
    case Busy => false
  }

  /** ... at some instant from `lo` on and before `hi`. */
  ghost predicate Answers(h: History, key: Scope, r: Reply, lo: nat, hi: nat) {
    exists t: nat :: lo <= t < hi && TrueAt(h, key, r, t)
  }

  lemma AnsweredAt(h: History, key: Scope, r: Reply, lo: nat, hi: nat, t: nat)
    requires lo <= t < hi && TrueAt(h, key, r, t)
    ensures Answers(h, key, r, lo, hi)
  {
  }

  /** The same model is hashed and deserialized. */
  predicate HashedIsLoaded(h: History, key: Scope, t: nat) {
    ContentAt(h, key.model, t + 5) == ContentAt(h, key.model, t + 6)
  }

  /** ... and it is the one whose stamp is remembered. */
  predicate Smooth(h: History, key: Scope, t: nat) {
    HashedIsLoaded(h, key, t) && ContentAt(h, key.model, t + 6) == ContentAt(h, key.model, t + 7)
  }

  /** The metadata of a stable attempt is one file from the second look to the last. */
  lemma StableMetadata(h: History, key: Scope, t: nat, k: nat)
    requires StampsTell(h, key) && Stable(h, key, t) && t + 1 <= k <= t + 8
    ensures key.metadata in h(t + 1) && key.metadata in h(k) && h(k)[key.metadata] == h(t + 1)[key.metadata]
  {
    MetadataStays(h, key, t + 1, t + 8, k);
  }

  /** A refusal after a stable attempt is always true of the disk at one instant. */
  lemma StableRefusalIsTrue(h: History, key: Scope, t: nat)
    requires StampsTell(h, key) && Stable(h, key, t)
    ensures LoadFrom(h, key, t + 2).Gone? ==> Answers(h, key, NotFound, t, t + 9)
    ensures LoadFrom(h, key, t + 2).Bad? ==> Answers(h, key, Refused, t, t + 9)
  {
    StableMetadata(h, key, t, t + 3);
    StableMetadata(h, key, t, t + 4);
    StableMetadata(h, key, t, t + 5);
    StableMetadata(h, key, t, t + 6);
    if LoadFrom(h, key, t + 2).Gone? {
      AnsweredAt(h, key, NotFound, t, t + 9, t + 2);
    } else if LoadFrom(h, key, t + 2).Bad? {
      AnsweredAt(h, key, Refused, t, t + 9,
        if LoadAt(h, key, t + 4) == None then t + 4 else if LoadAt(h, key, t + 5) == None then t + 5 else t + 6);
    }
  }

  /** When a stable attempt is atomic.  The pair it returns was on disk together exactly if the model
      that was hashed is the one that was deserialized: if so at the instant of the hash, and if not
      at no instant of all history.  The pair it remembers is what its stamps stand for exactly if
      that model is also the one that was stamped. */
  lemma StableLoadIsAtomicIff(h: History, key: Scope, t: nat)
    requires StampsTell(h, key) && Stable(h, key, t) && LoadFrom(h, key, t + 2).Good?
    ensures var read := LoadFrom(h, key, t + 2);
      var r := Found(read.artifact, read.metadata);
      && (HashedIsLoaded(h, key, t) ==> TrueAt(h, key, r, t + 5))
      && (!HashedIsLoaded(h, key, t) ==> forall k: nat :: !TrueAt(h, key, r, k))
      && (TrueAt(h, key, r, t + 7) <==> Smooth(h, key, t))
  {
    StableMetadata(h, key, t, t + 4);
    StableMetadata(h, key, t, t + 5);
    StableMetadata(h, key, t, t + 7);
  }

  /** The entry was remembered by a stable attempt that was over by `now`. */
  ghost predicate MadeAt(h: History, key: Scope, e: Kept, u: nat, now: nat) {
    && u + 9 <= now && Stable(h, key, u) && LoadFrom(h, key, u + 2).Good?
    && e == KeptFrom(h, key, u, LoadFrom(h, key, u + 2).artifact, LoadFrom(h, key, u + 2).metadata)
  }

  /** An entry that is met again, one stamp after the other, is what is on disk at that moment exactly
      if the attempt that made it was smooth: right once, always right, and torn once, always torn. */
  lemma HitIsTrueIff(h: History, key: Scope, e: Kept, u: nat, t: nat)
    requires StampsTell(h, key) && MadeAt(h, key, e, u, t)
    requires StampAt(h, key.model, t) == Some(e.modelStamp) && StampAt(h, key.metadata, t + 1) == Some(e.metadataStamp)
    ensures TrueAt(h, key, Found(e.artifact, e.metadata), t) <==> Smooth(h, key, u)
  {
    StableLoadIsAtomicIff(h, key, u);
    MetadataStays(h, key, u + 1, t + 1, t);
    StableMetadata(h, key, u, u + 7);
    SameModel(h, key, u, t);
    SameModel(h, key, u, u + 7);
  }

  // ----- the whole call -----

  ghost predicate IsMade(h: History, key: Scope, e: Kept, now: nat) {
    exists u: nat :: MadeAt(h, key, e, u, now)
  }

  /** Every entry of the cache comes from a stable attempt. */
  ghost predicate AllMade(h: History, kept: map<Scope, Kept>, now: nat) {
    forall key :: key in kept ==> IsMade(h, key, kept[key], now)
  }

  lemma StaysMade(h: History, kept: map<Scope, Kept>, now: nat, later: nat)
    requires AllMade(h, kept, now) && now <= later
    ensures AllMade(h, kept, later)
  {
    forall key | key in kept ensures IsMade(h, key, kept[key], later) {
      assert IsMade(h, key, kept[key], now);
      var u: nat :| MadeAt(h, key, kept[key], u, now);
      assert MadeAt(h, key, kept[key], u, later);
    }
  }

  lemma AddedIsMade(h: History, kept: map<Scope, Kept>, now: nat, key: Scope, e: Kept, u: nat)
    requires AllMade(h, kept, now) && MadeAt(h, key, e, u, now)
    ensures AllMade(h, kept[key := e], now)
  {
  }

  /** What a turn does to the cache. */
  lemma TurnKept(h: History, key: Scope, kept: map<Scope, Kept>, t: nat)
    ensures var turn, read := Turn(h, key, kept, t), LoadFrom(h, key, t + 2);
      && turn.now > t
      && (turn.kept == kept || turn.kept == kept - {key}
          || (Stable(h, key, t) && read.Good? && turn.now == t + 9
              && turn.kept == kept[key := KeptFrom(h, key, t, read.artifact, read.metadata)]))
  {
  }

  lemma RemovedIsMade(h: History, kept: map<Scope, Kept>, now: nat, key: Scope)
    requires AllMade(h, kept, now)
    ensures AllMade(h, kept - {key}, now)
  {
  }

  lemma TurnKeepsMade(h: History, key: Scope, kept: map<Scope, Kept>, t: nat)
    requires AllMade(h, kept, t)
    ensures AllMade(h, Turn(h, key, kept, t).kept, Turn(h, key, kept, t).now)
  {
    var turn, read := Turn(h, key, kept, t), LoadFrom(h, key, t + 2);
    TurnKept(h, key, kept, t);
    StaysMade(h, kept, t, turn.now);
    RemovedIsMade(h, kept, turn.now, key);
    if turn.kept != kept && turn.kept != kept - {key} {
      AddedIsMade(h, kept, turn.now, key, KeptFrom(h, key, t, read.artifact, read.metadata), t);
    }
  }

  /** Exactly when a remembered pair is what is on disk: iff the attempt that made it was smooth. */
  lemma RememberedIsTrueIff(h: History, key: Scope, kept: map<Scope, Kept>, t: nat) returns (u: nat)
    requires StampsTell(h, key) && AllMade(h, kept, t) && Hits(h, key, kept, t)
    ensures u + 9 <= t && Stable(h, key, u)
    ensures TrueAt(h, key, Found(kept[key].artifact, kept[key].metadata), t) <==> Smooth(h, key, u)
  {
    assert IsMade(h, key, kept[key], t);
    u :| MadeAt(h, key, kept[key], u, t);
    HitIsTrueIff(h, key, kept[key], u, t);
  }

  /** Exactly when a loaded pair was on disk at an instant of the attempt: iff what was hashed is what
      was loaded. */
  lemma LoadedIsTrueIff(h: History, key: Scope, t: nat)
    requires StampsTell(h, key) && Stable(h, key, t) && LoadFrom(h, key, t + 2).Good?
    ensures var read := LoadFrom(h, key, t + 2);
      Answers(h, key, Found(read.artifact, read.metadata), t, t + 9) <==> HashedIsLoaded(h, key, t)
  {
    var read := LoadFrom(h, key, t + 2);
    StableLoadIsAtomicIff(h, key, t);
    if HashedIsLoaded(h, key, t) {
      AnsweredAt(h, key, Found(read.artifact, read.metadata), t, t + 9, t + 5);
    }
  }

  /** No stable attempt up to `now` was interfered with between its hash and its last look. */
  ghost predicate SmoothUpTo(h: History, key: Scope, now: nat) {
    forall u: nat :: u + 9 <= now && Stable(h, key, u) ==> Smooth(h, key, u)
  }

  lemma TurnAnswers(h: History, key: Scope, kept: map<Scope, Kept>, t: nat)
    requires StampsTell(h, key) && AllMade(h, kept, t) && SmoothUpTo(h, key, Turn(h, key, kept, t).now)
    ensures var turn := Turn(h, key, kept, t);
      turn.reply.Some? ==> !turn.reply.value.Busy? && Answers(h, key, turn.reply.value, t, turn.now)
  {
    var turn := Turn(h, key, kept, t);
    if StampAt(h, key.model, t).None? || StampAt(h, key.metadata, t + 1).None? {
      AnsweredAt(h, key, NotFound, t, turn.now, if StampAt(h, key.model, t).None? then t else t + 1);
    } else if Hits(h, key, kept, t) {
      assert IsMade(h, key, kept[key], t);
      var u: nat :| MadeAt(h, key, kept[key], u, t);
      HitIsTrueIff(h, key, kept[key], u, t);
      AnsweredAt(h, key, turn.reply.value, t, turn.now, t);
    } else if Stable(h, key, t) {
      StableRefusalIsTrue(h, key, t);
      if LoadFrom(h, key, t + 2).Good? {
        StableLoadIsAtomicIff(h, key, t);
        AnsweredAt(h, key, turn.reply.value, t, turn.now, t + 5);
      }
    }
  }

  /** Nothing happens to the pair from `i` to `j`. */
  ghost predicate Quiet(h: History, key: Scope, i: nat, j: nat) {
    forall k: nat :: i <= k <= j ==>
      StampAt(h, key.model, k) == StampAt(h, key.model, i) && StampAt(h, key.metadata, k) == StampAt(h, key.metadata, i)
  }

  lemma AnotherTurnIsDisturbed(h: History, key: Scope, kept: map<Scope, Kept>, t: nat)
    requires Turn(h, key, kept, t).reply.None?
    ensures !Quiet(h, key, t, t + 8) && Turn(h, key, kept, t).now == t + 9
  {
  }

  /** Something happens to the pair in each of `n` separate windows of nine instants from `t` on. */
  ghost predicate Disturbed(h: History, key: Scope, t: nat, n: nat)
    decreases n
  {
    n == 0 || (!Quiet(h, key, t, t + 8) && Disturbed(h, key, t + 9, n - 1))
  }

  lemma LaterAnswers(h: History, key: Scope, r: Reply, lo: nat, mid: nat, hi: nat)
    requires lo <= mid
    ensures Answers(h, key, r, mid, hi) ==> Answers(h, key, r, lo, hi)
  {
    if Answers(h, key, r, mid, hi) {
      var t: nat :| mid <= t < hi && TrueAt(h, key, r, t);
      AnsweredAt(h, key, r, lo, hi, t);
    }
  }

  /** Busy means that the pair changed during each of the attempts. */
  lemma {:induction false} BusyIsDisturbed(h: History, key: Scope, kept: map<Scope, Kept>, t: nat, attempts: nat)
    requires Calls(h, key, kept, t, attempts).reply.Busy?
    ensures Disturbed(h, key, t, attempts)
    decreases attempts
  {
    if attempts > 0 {
      var turn := Turn(h, key, kept, t);
      TurnIsNotBusy(h, key, kept, t);
      AnotherTurnIsDisturbed(h, key, kept, t);
      BusyIsDisturbed(h, key, turn.kept, turn.now, attempts - 1);
    }
  }

  lemma TurnIsNotBusy(h: History, key: Scope, kept: map<Scope, Kept>, t: nat)
    ensures var turn := Turn(h, key, kept, t); turn.reply.Some? ==> !turn.reply.value.Busy?
  {
  }

  /** Whatever a call does, every entry still comes from a stable attempt. */
  lemma {:induction false} GetKeepsMade(h: History, key: Scope, kept: map<Scope, Kept>, t: nat, attempts: nat)
    requires AllMade(h, kept, t)
    ensures var got := Calls(h, key, kept, t, attempts); AllMade(h, got.kept, got.now)
    decreases attempts
  {
    if attempts > 0 {
      var turn := Turn(h, key, kept, t);
      TurnKeepsMade(h, key, kept, t);
      GetKeepsMade(h, key, turn.kept, turn.now, attempts - 1);
    }
  }

  /** What a call is answered from: the turn that answered it. */
  lemma {:induction false} AnsweringTurn(h: History, key: Scope, kept: map<Scope, Kept>, t: nat, attempts: nat)
    returns (last: map<Scope, Kept>, u: nat)
    requires AllMade(h, kept, t) && !Calls(h, key, kept, t, attempts).reply.Busy?
    ensures t <= u && AllMade(h, last, u)
    ensures var turn, got := Turn(h, key, last, u), Calls(h, key, kept, t, attempts);
      turn.reply == Some(got.reply) && turn.now == got.now
    decreases attempts
  {
    var turn := Turn(h, key, kept, t);
    if turn.reply.Some? {
      last, u := kept, t;
    } else {
      TurnKept(h, key, kept, t);
      TurnKeepsMade(h, key, kept, t);
      last, u := AnsweringTurn(h, key, turn.kept, turn.now, attempts - 1);
    }
  }

  /** `get`: if no stable attempt was interfered with between its hash and its last look, every answer
      is true of the disk at a single instant of the call. */
  lemma GetAnswers(h: History, key: Scope, kept: map<Scope, Kept>, t: nat, attempts: nat)
    requires StampsTell(h, key) && AllMade(h, kept, t) && SmoothUpTo(h, key, Calls(h, key, kept, t, attempts).now)
    ensures var got := Calls(h, key, kept, t, attempts); !got.reply.Busy? ==> Answers(h, key, got.reply, t, got.now)
  {
    var got := Calls(h, key, kept, t, attempts);
    if !got.reply.Busy? {
      var last, u := AnsweringTurn(h, key, kept, t, attempts);
      TurnAnswers(h, key, last, u);
      LaterAnswers(h, key, got.reply, t, u, got.now);
    }
  }

  // ----- which attempts are interfered with -----

  predicate AwayOverMetadata(h: History, key: Scope, i: nat, k: nat, j: nat) {
    StampAt(h, key.model, i).Some? && StampAt(h, key.model, i) == StampAt(h, key.model, j)
    && StampAt(h, key.model, k) != StampAt(h, key.model, i) && StampAt(h, key.metadata, i).Some? ==>
      StampAt(h, key.metadata, i) != StampAt(h, key.metadata, j)
  }

  /** A model that goes away and comes back finds other metadata. */
  ghost predicate ReturnsToOtherMetadata(h: History, key: Scope) {
    forall i: nat, k: nat, j: nat :: i <= k <= j ==> AwayOverMetadata(h, key, i, k, j)
  }

  /** Then only an attempt whose first two looks straddle a change of the metadata can be interfered
      with. */
  lemma StraddledOrSmooth(h: History, key: Scope, t: nat)
    requires StampsTell(h, key) && ReturnsToOtherMetadata(h, key) && Stable(h, key, t)
    ensures StampAt(h, key.metadata, t) == StampAt(h, key.metadata, t + 1) ==> Smooth(h, key, t)
  {
    if StampAt(h, key.metadata, t) == StampAt(h, key.metadata, t + 1) {
      StableMetadata(h, key, t, t + 7);
      assert AwayOverMetadata(h, key, t, t + 5, t + 7) && AwayOverMetadata(h, key, t, t + 6, t + 7);
      SameModel(h, key, t, t + 5);
      SameModel(h, key, t, t + 6);
      SameModel(h, key, t, t + 7);
    }
  }

  // ----- the whole call by its turns -----

  /** Three attempts, no more and no fewer: a call is Busy exactly if three turns in a row, nine looks
      each, found the signature changed. */
  lemma BusyAfterThree(h: History, key: Scope, kept: map<Scope, Kept>, t: nat)
    ensures var got := Calls(h, key, kept, t, MAX_LOAD_ATTEMPTS);
      var first := Turn(h, key, kept, t);
      got.reply.Busy? <==>
        && first.reply.None?
        && Turn(h, key, kept, t + 9).reply.None?
        && Turn(h, key, kept, t + 18).reply.None?
    ensures var got := Calls(h, key, kept, t, MAX_LOAD_ATTEMPTS); got.reply.Busy? ==> got.kept == kept && got.now == t + 27
  {
    ChangedTurn(h, key, kept, t);
    ChangedTurn(h, key, kept, t + 9);
    ChangedTurn(h, key, kept, t + 18);
    TurnIsNotBusy(h, key, kept, t);
    TurnIsNotBusy(h, key, kept, t + 9);
    TurnIsNotBusy(h, key, kept, t + 18);
  }

  /** A turn goes round again exactly if both files were there, nothing remembered matched, and a
      signature had changed after the load. */
  lemma ChangedTurn(h: History, key: Scope, kept: map<Scope, Kept>, t: nat)
    ensures var turn := Turn(h, key, kept, t);
      && (turn.reply.None? <==>
            && key.model in h(t) && key.metadata in h(t + 1) && !Hits(h, key, kept, t)
            && (StampAt(h, key.model, t + 7) != StampAt(h, key.model, t)
                || StampAt(h, key.metadata, t + 8) != StampAt(h, key.metadata, t + 1)))
      && (turn.reply.None? ==> turn.kept == kept && turn.now == t + 9)
  {
  }

  /** What a turn remembers and forgets: a missing file drops the entry, a load that succeeds replaces
      it, and every other entry stays. */
  lemma TurnRemembers(h: History, key: Scope, kept: map<Scope, Kept>, t: nat)
    ensures var turn := Turn(h, key, kept, t);
      && (key.model !in h(t) || key.metadata !in h(t + 1) ==> turn.reply == Some(NotFound) && key !in turn.kept)
      && (key.model in h(t) && key.metadata in h(t + 1) && !Hits(h, key, kept, t) && turn.reply.Some? && turn.reply.value.Found? ==>
            key in turn.kept && turn.kept[key].artifact == turn.reply.value.artifact
            && turn.kept[key].metadata == turn.reply.value.metadata)
      && (key.model in h(t) && key.metadata in h(t + 1) && turn.reply in {Some(NotFound), Some(Refused)} ==> turn.kept == kept)
      && forall other :: other != key ==> (other in turn.kept <==> other in kept)
                                          && (other in kept ==> turn.kept[other] == kept[other])
  {
  }
}
