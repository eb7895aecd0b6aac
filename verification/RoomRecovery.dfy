/** What a restart of the server costs: the room rebuilt from the last checkpoint compared with the
    room that was lost. */
module RoomRecovery {
  import opened Basics
  import opened Playback
  import opened RoomProtocol
  import opened RoomTimeline
  import opened RoomPresence
  import opened Counting

  function MediaIdOf(mediaId: Option<string>): string {
    if mediaId.Some? then mediaId.value else ""
  }

  /** The room's record and its timeline name the same medium. */
  ghost predicate MediaAgrees<C>(core: Core<C>) {
    MediaIdOf(core.room.mediaId) == core.playback.mediaId
  }

  /** Rebuilding from what is stored gives this timeline as it stood at time `t`. */
  ghost predicate Restores<C>(core: Core<C>, t: int) {
    var r := NewActor<C>(core.room, core.saved).playback;
    && r.mediaId == core.playback.mediaId && r.rate == core.playback.rate
    && r.anchorPos == if core.playback.phase.Playing? then Expected(core.playback, t) else core.playback.anchorPos
  }

  /** Nothing but the revision and the medium's length differs, and nothing was stored in between. */
  ghost predicate Kept<C>(core: Core<C>, core': Core<C>) {
    && core'.playback == core.playback.(revision := core'.playback.revision, duration := core'.playback.duration)
    && core'.room.mediaId == core.room.mediaId
    && core'.saved == core.saved
  }

  ghost predicate WritesCheckpoint<C>(core: Core<C>, input: Input<C>) {
    var core' := Step(core, input).core;
    core'.saved == Some(CheckpointOf(core'.room, core'.playback, input.now))
  }

  lemma SavedRestores<C>(core: Core<C>, now: int)
    requires MediaAgrees(core)
    requires core.saved == Some(CheckpointOf(core.room, core.playback, now))
    ensures Restores(core, now)
  {
  }

  lemma PlaybackSaveStep<C>(core: Core<C>, kind: Kind, p: Payload, now: int, db: Db)
    requires MediaAgrees(core) && db.saveOk
    ensures var core' := PlaybackStep(core, kind, p, now, db).core;
      MediaAgrees(core') && SavedOrKept(core, core', now)
  {
  }

  ghost predicate SavedOrKept<C>(core: Core<C>, core': Core<C>, now: int) {
    core'.saved == Some(CheckpointOf(core'.room, core'.playback, now)) || Kept(core, core')
  }

  lemma ApplySaveStep<C>(core: Core<C>, i: Identity, c: Command, now: int, db: Db)
    requires MediaAgrees(core) && db.saveOk
    ensures var core' := ApplyStep(core, i, c, now, db).core;
      MediaAgrees(core') && SavedOrKept(core, core', now)
  {
    if c.payload.Some? && !c.kind.ClientReady? && (!IsAdmin(c.kind) || c.kind.UnknownAdmin?) {
      PlaybackSaveStep(core, c.kind, c.payload.value, now, db);
    }
  }

  /** Every message that moves the timeline stores it. */
  lemma SaveStep<C>(core: Core<C>, input: Input<C>)
    requires MediaAgrees(core) && input.db.saveOk
    ensures MediaAgrees(Step(core, input).core)
    ensures WritesCheckpoint(core, input) || Kept(core, Step(core, input).core)
  {
    if input.msg.Do? {
      ApplySaveStep(core, input.msg.identity, input.msg.command, input.now, input.db);
    } else if input.msg.Leave? {
    }
  }

  /** The messages that store a checkpoint: a shutdown, the periodic tick while playing, the host's
      departure, and every command that is answered with a new state, other than an announced length. */
  ghost predicate Stores<C>(core: Core<C>, input: Input<C>) {
    || input.msg.Shutdown? || (input.msg.Tick? && core.playback.phase.Playing?) || HostDeparts(core, input)
    || (input.msg.Do? && !input.msg.command.kind.ClientReady? && Republishes(core, input))
  }

  lemma PlaybackStores<C>(core: Core<C>, kind: Kind, p: Payload, now: int, db: Db)
    ensures var r := PlaybackStep(core, kind, p, now, db);
      if r.reply.Done? && r.reply.state.Some? then SavedAs(core, r.core, now, db.saveOk) else r.core.saved == core.saved
  {
  }

  /** If the store takes it, what is stored is the room's medium, the position on the timeline while it
      plays and the anchor otherwise, the rate and the phase, at that time. */
  ghost predicate SavedAs<C>(core: Core<C>, core': Core<C>, now: int, ok: bool) {
    var s := core'.playback;
    core'.saved ==
      if ok then Some(Checkpoint(core'.room.mediaId, if s.phase == Playing then Expected(s, now) else s.anchorPos, s.rate, s.phase, now))
      else core.saved
  }

  /** Exactly those messages store, and what they store. */
  lemma StoredStep<C>(core: Core<C>, input: Input<C>)
    ensures var core' := Step(core, input).core;
      if Stores(core, input) then SavedAs(core, core', input.now, input.db.saveOk) else core'.saved == core.saved
  {
    if input.msg.Do? {
      var c := input.msg.command;
      if c.payload.Some? && !c.kind.ClientReady? && (!IsAdmin(c.kind) || c.kind.UnknownAdmin?) {
        PlaybackStores(core, c.kind, c.payload.value, input.now, input.db);
      }
    } else if input.msg.Leave? {
    }
  }

  /** A room that is started anew: nobody is in it, nothing was heard, nothing plays; from a checkpoint
      it has that one's medium, position and rate, without one the room's own medium from the start. */
  lemma StartedRoom<C>(room: Room, cp: Option<Checkpoint>)
    ensures var core := NewActor<C>(room, cp);
            var s := core.playback;
      && core.room == room && core.members == map[] && core.online == 0 && core.filter == Filter(0, 0, 0) && core.saved == cp
      && s.revision == 0 && s.epoch == 0 && s.duration == 0 && s.anchorTime == 0 && s.resumeIntent.None?
      && (cp.None? ==>
            && s.mediaId == MediaIdOf(room.mediaId) && s.anchorPos == 0 && s.rate == 1.0
            && s.phase == if room.mediaId.Some? then Paused else NoMedia)
      && (cp.Some? ==>
            s.mediaId == MediaIdOf(cp.value.mediaId) && s.anchorPos == cp.value.position && s.rate == cp.value.rate && s.phase == Paused)
  {
  }

  /** Message `j - 1` wrote the checkpoint that is still the stored one at `k` (for `j == 0`: the
      room was started from it), and the timeline has been the same ever since. */
  ghost predicate LastSaved<C>(core: Core<C>, inputs: seq<Input<C>>, j: nat, k: nat, start: int)
    requires j <= k <= |inputs|
  {
    && Restores(At(core, inputs, j), SaveTime(inputs, j, start))
    && Kept(At(core, inputs, j), At(core, inputs, k))
    && (forall m | j <= m < k :: !WritesCheckpoint(At(core, inputs, m), inputs[m]))
  }

  function SaveTime<C>(inputs: seq<Input<C>>, j: nat, start: int): int
    requires j <= |inputs|
  {
    if j == 0 then start else inputs[j - 1].now
  }

  lemma LastSavedExtends<C>(core: Core<C>, inputs: seq<Input<C>>, j: nat, k: nat, start: int)
    requires j <= k < |inputs| && LastSaved(core, inputs, j, k, start)
    requires Kept(At(core, inputs, k), At(core, inputs, k + 1)) && !WritesCheckpoint(At(core, inputs, k), inputs[k])
    ensures LastSaved(core, inputs, j, k + 1, start)
  {
  }

  lemma LastSavedStep<C>(core: Core<C>, inputs: seq<Input<C>>, j: nat, k: nat, start: int)
    requires j <= k < |inputs|
    requires MediaAgrees(At(core, inputs, k)) && inputs[k].db.saveOk
    requires LastSaved(core, inputs, j, k, start)
    ensures MediaAgrees(At(core, inputs, k + 1))
    ensures LastSaved(core, inputs, j, k + 1, start) || LastSaved(core, inputs, k + 1, k + 1, start)
  {
    AtNext(core, inputs, k);
    SaveStep(At(core, inputs, k), inputs[k]);
    if WritesCheckpoint(At(core, inputs, k), inputs[k]) {
      SavedRestores(At(core, inputs, k + 1), inputs[k].now);
    } else {
      LastSavedExtends(core, inputs, j, k, start);
    }
  }

  lemma SavedAtStart<C>(room: Room, cp: Option<Checkpoint>, inputs: seq<Input<C>>, start: int)
    requires cp.Some? ==> MediaIdOf(cp.value.mediaId) == MediaIdOf(room.mediaId)
    ensures MediaAgrees(At(NewActor<C>(room, cp), inputs, 0)) && LastSaved(NewActor(room, cp), inputs, 0, 0, start)
  {
    assert At(NewActor<C>(room, cp), inputs, 0) == NewActor<C>(room, cp);
  }

  lemma {:induction false} AlwaysSaved<C>(room: Room, cp: Option<Checkpoint>, inputs: seq<Input<C>>, k: nat, start: int)
    requires k <= |inputs|
    requires cp.Some? ==> MediaIdOf(cp.value.mediaId) == MediaIdOf(room.mediaId)
    requires forall m | 0 <= m < |inputs| :: inputs[m].db.saveOk
    ensures MediaAgrees(At(NewActor<C>(room, cp), inputs, k))
    ensures exists j | 0 <= j <= k :: LastSaved(NewActor(room, cp), inputs, j, k, start)
  {
    var core := NewActor<C>(room, cp);
    if k == 0 {
      SavedAtStart(room, cp, inputs, start);
    } else {
      AlwaysSaved(room, cp, inputs, k - 1, start);
      var j :| 0 <= j <= k - 1 && LastSaved(core, inputs, j, k - 1, start);
      LastSavedStep(core, inputs, j, k - 1, start);
    }
  }

  /** Learning a medium's length for the first time, or that it is shorter, costs nothing. */
  predicate LengthAllows(before: int, after: int) {
    after == before || before == 0 || 0 < after <= before
  }

  lemma ClampTwice(p: int, before: int, after: int)
    requires LengthAllows(before, after) || 0 <= p <= before
    ensures Clamp(Clamp(p, before), after) == Clamp(p, after)
  {
  }

  /** The position of a rebuilt timeline, against the lost one `s` at the time of the crash. */
  ghost predicate RecoveredWithin(r: PlaybackState, s: PlaybackState, saved: int, crash: int) {
    && Clamp(r.anchorPos, s.duration) <= Expected(s, crash)
    && Expected(s, crash) as real < Clamp(r.anchorPos, s.duration) as real + Span(crash - saved, s.rate) + 1.0
  }

  ghost predicate AlwaysWithin(r: PlaybackState, s: PlaybackState, saved: int) {
    forall crash | saved <= crash :: RecoveredWithin(r, s, saved, crash)
  }

  /** The position that is stored at `saved` when the medium's length is taken to be `length`. */
  function StoredPosition(s: PlaybackState, length: int, saved: int): int {
    if s.phase.Playing? then Expected(s.(duration := length), saved) else s.anchorPos
  }

  /** What is stored at `saved` with the length taken to be `length` is still right under the length
      of `s`: the room was not playing, or had not yet run past that length, or the length has since
      only been learned or shortened. */
  predicate Covers(s: PlaybackState, length: int, saved: int) {
    LengthAllows(length, s.duration) || !s.phase.Playing? || Unclamped(s, saved) <= length
  }

  /** The stored position is the live one at the time of the save exactly if it is covered; if not, it
      is the old end of the medium, and the timeline had already run past it. */
  lemma StoredPositionClamped(s: PlaybackState, length: int, saved: int)
    requires Sane(s) && length >= 0
    ensures Clamp(StoredPosition(s, length, saved), s.duration) == Expected(s, saved) <==> Covers(s, length, saved)
    ensures !Covers(s, length, saved) ==> Clamp(StoredPosition(s, length, saved), s.duration) == length < Expected(s, saved)
  {
    ValidRateBounds(s.rate);
    ExpectedIsClamped(s, saved);
    if s.phase.Playing? {
      UnclampedAdvance(s, if saved < s.anchorTime then saved else s.anchorTime, saved);
      ExpectedIsClamped(s.(duration := length), saved);
      if Covers(s, length, saved) {
        ClampTwice(Unclamped(s, saved), length, s.duration);
      }
    }
  }

  /** The bound holds at every later crash if and only if what was stored is covered. */
  lemma WithinIffCovered(r: PlaybackState, s: PlaybackState, length: int, saved: int)
    requires Sane(s) && length >= 0
    requires r.anchorPos == StoredPosition(s, length, saved)
    ensures AlwaysWithin(r, s, saved) <==> Covers(s, length, saved)
  {
    StoredPositionClamped(s, length, saved);
    if Covers(s, length, saved) {
      forall crash | saved <= crash
        ensures RecoveredWithin(r, s, saved, crash)
      {
        ExpectedAdvance(s, saved, crash);
      }
    } else {
      SpanAdvance(0, 0, s.rate);
      assert !RecoveredWithin(r, s, saved, saved);
    }
  }

  lemma RestoredPosition<C>(old_: Core<C>, core: Core<C>, saved: int)
    requires Restores(old_, saved) && Kept(old_, core)
    ensures NewActor<C>(core.room, core.saved).playback.anchorPos
         == StoredPosition(core.playback, old_.playback.duration, saved)
  {
    ExpectedIgnoresRevision(old_.playback, core.playback.revision, saved);
    assert old_.playback.(revision := core.playback.revision)
        == core.playback.(duration := old_.playback.duration);
  }

  /** Whatever a room is rebuilt from, it does not play, and its position stays what it is. */
  lemma RebuiltStandsStill<C>(room: Room, cp: Option<Checkpoint>, t: int)
    requires SaneCheckpoint(cp)
    ensures var r := NewActor<C>(room, cp).playback;
      !r.phase.Playing? && Expected(r, t) == r.anchorPos
  {
  }

  lemma WithinAt<C>(room: Room, cp: Option<Checkpoint>, inputs: seq<Input<C>>, j: nat, k: nat, start: int)
    requires j <= k <= |inputs| && SaneCheckpoint(cp)
    requires LastSaved(NewActor<C>(room, cp), inputs, j, k, start)
    ensures var saved, core := At(NewActor<C>(room, cp), inputs, j), At(NewActor<C>(room, cp), inputs, k);
      AlwaysWithin(NewActor<C>(core.room, core.saved).playback, core.playback, SaveTime(inputs, j, start))
      <==> Covers(core.playback, saved.playback.duration, SaveTime(inputs, j, start))
  {
    var first := NewActor<C>(room, cp);
    var core := At(first, inputs, k);
    SaneRun(room, cp, inputs[..j]);
    SaneRun(room, cp, inputs[..k]);
    RestoredPosition(At(first, inputs, j), core, SaveTime(inputs, j, start));
    WithinIffCovered(NewActor<C>(core.room, core.saved).playback, core.playback,
                     At(first, inputs, j).playback.duration, SaveTime(inputs, j, start));
  }

  /** Crash bound: at any point of any run whose saves succeed, a room rebuilt from the store has the
      same medium and rate, does not play and stands still. There is a last saved moment; and from
      the last saved moment on, whenever the crash comes, the rebuilt position is at most the lost
      one and short of it by less than what was played since the save plus a millisecond, if and
      only if what was stored then is covered by the length that is known now. */
  lemma CrashBound<C>(room: Room, cp: Option<Checkpoint>, inputs: seq<Input<C>>, k: nat, start: int)
    requires k <= |inputs|
    requires SaneCheckpoint(cp)
    requires cp.Some? ==> MediaIdOf(cp.value.mediaId) == MediaIdOf(room.mediaId)
    requires forall m | 0 <= m < |inputs| :: inputs[m].db.saveOk
    ensures var core := At(NewActor<C>(room, cp), inputs, k);
            var r := NewActor<C>(core.room, core.saved).playback;
      && r.mediaId == core.playback.mediaId && r.rate == core.playback.rate && !r.phase.Playing?
      && (forall t: int :: Expected(r, t) == r.anchorPos)
    ensures exists j | 0 <= j <= k :: LastSaved(NewActor<C>(room, cp), inputs, j, k, start)
    ensures forall j | 0 <= j <= k && LastSaved(NewActor<C>(room, cp), inputs, j, k, start) ::
      var saved, core := At(NewActor<C>(room, cp), inputs, j), At(NewActor<C>(room, cp), inputs, k);
      AlwaysWithin(NewActor<C>(core.room, core.saved).playback, core.playback, SaveTime(inputs, j, start))
      <==> Covers(core.playback, saved.playback.duration, SaveTime(inputs, j, start))
  {
    var core := At(NewActor<C>(room, cp), inputs, k);
    AlwaysSaved(room, cp, inputs, k, start);
    SaneRun(room, cp, inputs[..k]);
    forall t: int
      ensures Expected(NewActor<C>(core.room, core.saved).playback, t) == NewActor<C>(core.room, core.saved).playback.anchorPos
    {
      RebuiltStandsStill<C>(core.room, core.saved, t);
    }
    forall j | 0 <= j <= k && LastSaved(NewActor<C>(room, cp), inputs, j, k, start)
      ensures var saved, core := At(NewActor<C>(room, cp), inputs, j), At(NewActor<C>(room, cp), inputs, k);
        AlwaysWithin(NewActor<C>(core.room, core.saved).playback, core.playback, SaveTime(inputs, j, start))
        <==> Covers(core.playback, saved.playback.duration, SaveTime(inputs, j, start))
    {
      WithinAt(room, cp, inputs, j, k, start);
    }
  }

  // ---------------------------------------------------------------- a run that is not covered

  function Told(kind: Kind, durationMs: int, now: int): Input<nat> {
    Input(Do(HOST, Command(kind, Some(Payload(0, 1.0, false, 4, "", "m", durationMs, true)))), now, STORE_OK)
  }

  /** The host announces a length of one second, plays past it, and corrects the length after the
      periodic checkpoint. */
  function Underestimated(): seq<Input<nat>> {
    [Input(Join(0, HOST), 1000, STORE_OK), Told(ClientReady, 1000, 1000), Told(Play, 0, 1000),
     Input(Tick, 10000, STORE_OK), Told(ClientReady, 100000, 10001)]
  }

  const UNDERESTIMATED_ROOM := Room("host", Open, Some("m"), 5, "")

  ghost predicate RunningSince1350(core: Core<nat>, duration: int) {
    && core.room == UNDERESTIMATED_ROOM && "host" in core.members
    && core.playback == PlaybackState("m", core.playback.revision, 0, Playing, 0, 1350, 1.0, duration, None)
  }

  lemma UnderestimatedPlays(core: Core<nat>)
    requires JustJoined(UNDERESTIMATED_ROOM, core)
    ensures RunningSince1350(Step(Step(core, Underestimated()[1]).core, Underestimated()[2]).core, 1000)
  {
    var second := Step(core, Underestimated()[1]).core;
    assert second.room == core.room && second.playback == core.playback.(duration := 1000, revision := 1);
    assert "host" in second.members;
  }

  lemma UnderestimatedStart()
    ensures RunningSince1350(At(NewActor(UNDERESTIMATED_ROOM, None), Underestimated(), 3), 1000)
  {
    var core := NewActor<nat>(UNDERESTIMATED_ROOM, None);
    AtNext(core, Underestimated(), 0);
    HostJoins(UNDERESTIMATED_ROOM, Underestimated()[0]);
    AtNext(core, Underestimated(), 1);
    AtNext(core, Underestimated(), 2);
    UnderestimatedPlays(At(core, Underestimated(), 1));
  }

  lemma UnderestimatedTick(core: Core<nat>)
    requires RunningSince1350(core, 1000)
    ensures var core' := Step(core, Underestimated()[3]).core;
      RunningSince1350(core', 1000) && core'.saved == Some(Checkpoint(Some("m"), 1000, 1.0, Playing, 10000))
      && Restores(core', 10000)
  {
    assert Expected(core.playback, 10000) == 1000;
  }

  lemma UnderestimatedEnd(core: Core<nat>)
    requires RunningSince1350(core, 1000) && core.saved == Some(Checkpoint(Some("m"), 1000, 1.0, Playing, 10000))
    ensures var core' := Step(core, Underestimated()[4]).core;
      && RunningSince1350(core', 100000) && Kept(core, core') && !WritesCheckpoint(core, Underestimated()[4])
      && Expected(core'.playback, 10000) == 8650 && NewActor<nat>(core'.room, core'.saved).playback.anchorPos == 1000
  {
  }

  /** Once a known length turns out to have been too short, the rebuilt room can be far
      behind: here it stands at the old end, 7650 ms short of the live one at the very time of the save. */
  lemma UnderestimatedLengthLosesPosition()
    ensures var core := NewActor<nat>(UNDERESTIMATED_ROOM, None);
            var lost := At(core, Underestimated(), 5);
            var r := NewActor<nat>(lost.room, lost.saved).playback;
      && LastSaved(core, Underestimated(), 4, 5, 0) && SaveTime(Underestimated(), 4, 0) == 10000
      && Expected(lost.playback, 10000) == 8650 && r.anchorPos == 1000
      && !RecoveredWithin(r, lost.playback, 10000, 10000)
  {
    var core := NewActor<nat>(UNDERESTIMATED_ROOM, None);
    UnderestimatedStart();
    AtNext(core, Underestimated(), 3);
    UnderestimatedTick(At(core, Underestimated(), 3));
    AtNext(core, Underestimated(), 4);
    UnderestimatedEnd(At(core, Underestimated(), 4));
  }

  // ---------------------------------------------------------------- starting from a checkpoint of another medium

  ghost predicate SameMedium<C>(core: Core<C>, core': Core<C>) {
    core'.room.mediaId == core.room.mediaId && core'.playback.mediaId == core.playback.mediaId
  }

  /** Nothing was stored, or what was stored names the room's medium. */
  ghost predicate Stored<C>(core: Core<C>, core': Core<C>) {
    core'.saved == core.saved || Names(core')
  }

  ghost predicate Names<C>(core: Core<C>) {
    core.saved.Some? && core.saved.value.mediaId == core.room.mediaId
  }

  lemma MediumPlayback<C>(core: Core<C>, kind: Kind, p: Payload, now: int, db: Db)
    ensures var core' := PlaybackStep(core, kind, p, now, db).core; SameMedium(core, core') && Stored(core, core')
  {
  }

  lemma MediumApply<C>(core: Core<C>, i: Identity, c: Command, now: int, db: Db)
    ensures var r := ApplyStep(core, i, c, now, db);
      if c.kind.SetMedia? && r.reply.Done? then MediaAgrees(r.core) && (db.saveOk ==> Names(r.core))
      else SameMedium(core, r.core) && Stored(core, r.core)
  {
    if c.payload.Some? && !c.kind.ClientReady? && (!IsAdmin(c.kind) || c.kind.UnknownAdmin?) {
      MediumPlayback(core, c.kind, c.payload.value, now, db);
    }
  }

  /** Only an accepted change of medium touches either record of it, and it makes them agree. */
  lemma MediumStep<C>(core: Core<C>, input: Input<C>)
    ensures var core' := Step(core, input).core;
      if Performs(core, input, SetMedia) then MediaAgrees(core') && (input.db.saveOk ==> Names(core'))
      else SameMedium(core, core') && Stored(core, core')
  {
    if input.msg.Do? {
      MediumApply(core, input.msg.identity, input.msg.command, input.now, input.db);
    } else if input.msg.Leave? {
    }
  }

  ghost function MediaChanges<C>(core: Core<C>, inputs: seq<Input<C>>): seq<bool> {
    seq(|inputs|, k requires 0 <= k < |inputs| => Performs(At(core, inputs, k), inputs[k], SetMedia))
  }

  lemma MediumAt<C>(core: Core<C>, inputs: seq<Input<C>>, k: nat)
    requires k < |inputs|
    ensures var before, after := At(core, inputs, k), At(core, inputs, k + 1);
      if MediaChanges(core, inputs)[k] then MediaAgrees(after) && (inputs[k].db.saveOk ==> Names(after))
      else SameMedium(before, after) && Stored(before, after)
  {
    AtNext(core, inputs, k);
    MediumStep(At(core, inputs, k), inputs[k]);
  }

  /** The two records agree if and only if they did at the start or the medium was changed since; until
      then both stay what they were. */
  lemma {:induction false} MediaAgreesIff<C>(core: Core<C>, inputs: seq<Input<C>>, k: nat)
    requires k <= |inputs|
    ensures MediaAgrees(At(core, inputs, k)) <==> MediaAgrees(core) || Count(MediaChanges(core, inputs), 0, k) > 0
    ensures Count(MediaChanges(core, inputs), 0, k) == 0 ==> SameMedium(core, At(core, inputs, k))
  {
    if k > 0 {
      MediaAgreesIff(core, inputs, k - 1);
      MediumAt(core, inputs, k - 1);
    }
  }

  /** What is stored names the room's medium once anything was stored or the medium was changed. */
  lemma {:induction false} NamesRun<C>(core: Core<C>, inputs: seq<Input<C>>, k: nat)
    requires k <= |inputs| && forall m | 0 <= m < |inputs| :: inputs[m].db.saveOk
    ensures Names(At(core, inputs, k)) || (At(core, inputs, k).saved == core.saved && SameMedium(core, At(core, inputs, k)))
  {
    if k > 0 {
      NamesRun(core, inputs, k - 1);
      MediumAt(core, inputs, k - 1);
    }
  }

  /** The medium of a rebuilt room. */
  lemma RebuiltMedium<C>(core: Core<C>)
    ensures NewActor<C>(core.room, core.saved).playback.mediaId
         == MediaIdOf(if core.saved.Some? then core.saved.value.mediaId else core.room.mediaId)
  {
  }

  /** Whatever checkpoint a run started from, the room rebuilt from the store has the live medium if and
      only if the stored checkpoint is still that one, or it named the room's medium, or the medium
      was changed in the run. */
  lemma RebuiltMediumIff<C>(room: Room, cp: Option<Checkpoint>, inputs: seq<Input<C>>, k: nat)
    requires k <= |inputs| && forall m | 0 <= m < |inputs| :: inputs[m].db.saveOk
    ensures var first := NewActor<C>(room, cp);
            var core := At(first, inputs, k);
      NewActor<C>(core.room, core.saved).playback.mediaId == core.playback.mediaId
      <==>
      core.saved == cp || MediaAgrees(first) || Count(MediaChanges(first, inputs), 0, k) > 0
  {
    var first := NewActor<C>(room, cp);
    MediaAgreesIff(first, inputs, k);
    NamesRun(first, inputs, k);
    RebuiltMedium(At(first, inputs, k));
    RebuiltMedium(first);
  }

  /** For example a room whose stored checkpoint is of an older medium: it shows that one, and after its
      next checkpoint a restart shows the other. */
  lemma StaleCheckpointSwitchesMedium()
    ensures var room := Room("host", Open, Some("new"), 5, "");
            var core := NewActor<nat>(room, Some(Checkpoint(Some("old"), 0, 1.0, Paused, 0)));
            var after := Step(core, Input(Shutdown, 1000, STORE_OK)).core;
      after.playback.mediaId == "old" && NewActor<nat>(after.room, after.saved).playback.mediaId == "new"
  {
  }
}
