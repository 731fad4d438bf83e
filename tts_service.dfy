/**
 * The speech-playback queue of src/lib/tts-service.ts.
 *
 * One `TTSService` object owns a FIFO queue of synthesized utterances, plays
 * at most one of them at a time, and tells its subscribers which agent is
 * speaking whenever that changes.  The network synthesis is reduced to its
 * outcome (`synthesis`, `None` when it failed), the browser audio element to
 * an opaque handle, and the audio element's `ended` / `error` /
 * `play()`-rejected events to the method `OnPlaybackFinished`.
 *
 * Three ghost logs make the history observable:
 *   - `notifications`: every speaker-change broadcast, with the speaker
 *     (or `None`) and the set of subscribers it reached;
 *   - `enqueued`: the `messageId` of every successfully queued request;
 *   - `departed`: every item that left the queue, in order, either because
 *     it started playing or because `StopAll` discarded it.
 */
module SpeechQueue {

  import opened Wrappers

  /** An opaque handle standing for one synthesized `HTMLAudioElement`. */
  type AudioHandle = nat

  /** Identity of a registered speaking-change callback. */
  type SubscriberId = nat

  datatype SpeechRequest = SpeechRequest(text: string, agentName: string, messageId: string, voiceId: Option<string>)

  datatype QueueItem = QueueItem(audio: AudioHandle, messageId: string, agentName: string)

  /** One broadcast of `notifySpeakingChange`: the speaker and who received it. */
  datatype Notification = Notification(speaker: Option<string>, recipients: set<SubscriberId>)

  /** How an item left the queue. */
  datatype Departure = Played(id: string) | Discarded(id: string)

  /** The message ids of a queue, in queue order. */
  function Ids(q: seq<QueueItem>): (ids: seq<string>)
    ensures |ids| == |q|
    ensures forall i :: 0 <= i < |q| ==> ids[i] == q[i].messageId
  {
    seq(|q|, i requires 0 <= i < |q| => q[i].messageId)
  }

  /** The message ids of a departure log, in departure order. */
  function DepartedIds(d: seq<Departure>): (ids: seq<string>)
    ensures |ids| == |d|
    ensures forall i :: 0 <= i < |d| ==> ids[i] == d[i].id
  {
    seq(|d|, i requires 0 <= i < |d| => d[i].id)
  }

  /** The departures `StopAll` records for the items it tears down. */
  function Discards(q: seq<QueueItem>): (d: seq<Departure>)
    ensures |d| == |q|
    ensures forall i :: 0 <= i < |q| ==> d[i] == Discarded(q[i].messageId)
  {
    seq(|q|, i requires 0 <= i < |q| => Discarded(q[i].messageId))
  }

  /** The ids of the items that actually became current, in that order. */
  function PlayedIds(d: seq<Departure>): seq<string>
  {
    if d == [] then []
    else PlayedIds(d[..|d| - 1]) + (if d[|d| - 1].Played? then [d[|d| - 1].id] else [])
  }

  /** The speaker announced by the latest broadcast (`None` before any). */
  function LastSpeaker(n: seq<Notification>): Option<string>
  {
    if n == [] then None else n[|n| - 1].speaker
  }

  /**
   * Without a `StopAll` in the history, playback order is exactly the order
   * in which items left the queue.
   */
  lemma {:induction false} PlayedIdsWithoutDiscards(d: seq<Departure>)
    requires forall i :: 0 <= i < |d| ==> d[i].Played?
    ensures PlayedIds(d) == DepartedIds(d)
  {
    if d != [] {
      var init := d[..|d| - 1];
      PlayedIdsWithoutDiscards(init);
      assert DepartedIds(d) == DepartedIds(init) + [d[|d| - 1].id];
    }
  }

  /** Discarding items never adds to the playback order. */
  lemma {:induction false} PlayedIdsIgnoresDiscards(d: seq<Departure>, q: seq<QueueItem>)
    ensures PlayedIds(d + Discards(q)) == PlayedIds(d)
    decreases |q|
  {
    if q != [] {
      var init := q[..|q| - 1];
      var whole := d + Discards(q);
      assert whole[..|whole| - 1] == d + Discards(init);
      assert whole[|whole| - 1].Discarded?;
      PlayedIdsIgnoresDiscards(d, init);
      assert PlayedIds(whole) == PlayedIds(d + Discards(init));
    } else {
      assert d + Discards(q) == d;
    }
  }

  class TTSService {
    var audioQueue: seq<QueueItem>
    var isPlaying: bool
    var currentAudio: Option<AudioHandle>
    var enabled: bool
    var currentSpeaker: Option<string>
    var speakingCallbacks: set<SubscriberId>

    ghost var notifications: seq<Notification>
    ghost var enqueued: seq<string>
    ghost var departed: seq<Departure>

    /**
     * Field agreement that holds at every point where a speaker change has
     * been broadcast: playing exactly when there is a current audio, exactly
     * when there is a current speaker; the speaker is the last one announced;
     * and every successfully queued id has either departed, in order, or is
     * still waiting in the queue, in order (FIFO).
     */
    ghost predicate Consistent()
      reads this
    {
      (isPlaying <==> currentAudio.Some?) &&
      (currentSpeaker.Some? <==> currentAudio.Some?) &&
      currentSpeaker == LastSpeaker(notifications) &&
      enqueued == DepartedIds(departed) + Ids(audioQueue)
    }

    /** The invariant of every public operation: additionally, an idle service has an empty queue. */
    ghost predicate Valid()
      reads this
    {
      Consistent() && (!isPlaying ==> audioQueue == [])
    }

    /** The ids that have become current so far, in playback order. */
    ghost function PlaybackOrder(): seq<string>
      reads this
    {
      PlayedIds(departed)
    }

    /**
     * The outcome of one `playNext` from a state with queue `q`, departure log
     * `d` and broadcast log `n`.
     */
    ghost predicate AdvancedFrom(q: seq<QueueItem>, d: seq<Departure>, n: seq<Notification>)
      reads this
    {
      if q == [] then
        !isPlaying && currentAudio == None && currentSpeaker == None &&
        audioQueue == [] && departed == d &&
        notifications == n + [Notification(None, speakingCallbacks)]
      else
        isPlaying && currentAudio == Some(q[0].audio) &&
        currentSpeaker == Some(q[0].agentName) &&
        audioQueue == q[1..] && departed == d + [Played(q[0].messageId)] &&
        notifications == n + [Notification(Some(q[0].agentName), speakingCallbacks)]
    }

    constructor ()
      ensures Valid()
      ensures audioQueue == [] && !isPlaying && currentAudio == None
      ensures enabled && currentSpeaker == None && speakingCallbacks == {}
      ensures notifications == [] && enqueued == [] && departed == []
    {
      audioQueue := [];
      isPlaying := false;
      currentAudio := None;
      enabled := true;
      currentSpeaker := None;
      speakingCallbacks := {};
      notifications := [];
      enqueued := [];
      departed := [];
    }

    /** Changes only the enable flag; an utterance already playing is unaffected. */
    method SetEnabled(flag: bool)
      requires Valid()
      modifies this`enabled
      ensures Valid()
      ensures enabled == flag
    {
      enabled := flag;
    }

    method IsEnabled() returns (r: bool)
      ensures r == enabled
    {
      r := enabled;
    }

    /** Registers a callback; registering the same callback twice keeps one entry. */
    method OnSpeakingChange(callback: SubscriberId)
      requires Valid()
      modifies this`speakingCallbacks
      ensures Valid()
      ensures speakingCallbacks == old(speakingCallbacks) + {callback}
    {
      speakingCallbacks := speakingCallbacks + {callback};
    }

    /** The unsubscribe closure `onSpeakingChange` returns. */
    method Unsubscribe(callback: SubscriberId)
      requires Valid()
      modifies this`speakingCallbacks
      ensures Valid()
      ensures callback !in speakingCallbacks
      ensures speakingCallbacks == old(speakingCallbacks) - {callback}
    {
      speakingCallbacks := speakingCallbacks - {callback};
    }

    /** Records the new speaker and invokes every registered callback with it. */
    method NotifySpeakingChange(agentName: Option<string>)
      modifies this`currentSpeaker, this`notifications
      ensures currentSpeaker == agentName
      ensures notifications == old(notifications) + [Notification(agentName, speakingCallbacks)]
    {
      currentSpeaker := agentName;
      notifications := notifications + [Notification(agentName, speakingCallbacks)];
    }

    method GetCurrentSpeaker() returns (r: Option<string>)
      requires Valid()
      ensures r == currentSpeaker
      ensures r.Some? <==> isPlaying
    {
      r := currentSpeaker;
    }

    /**
     * `generateSpeech`: nothing is synthesized while disabled; otherwise the
     * result is whatever the synthesis produced, a failure being `None`.
     */
    function GenerateSpeech(synthesis: Option<AudioHandle>): (audio: Option<AudioHandle>)
      reads this
      ensures !enabled ==> audio == None
      ensures audio.Some? <==> enabled && synthesis.Some?
      ensures audio.Some? ==> audio == synthesis
    {
      if !enabled then None else synthesis
    }

    /**
     * Disabled or failed synthesis: nothing changes.  Otherwise the item is
     * appended at the tail and, when idle, started at once.
     */
    method QueueSpeech(request: SpeechRequest, synthesis: Option<AudioHandle>)
      requires Valid()
      modifies this`audioQueue, this`isPlaying, this`currentAudio, this`currentSpeaker,
               this`notifications, this`enqueued, this`departed
      ensures Valid()
      ensures old(GenerateSpeech(synthesis)) == None ==>
        audioQueue == old(audioQueue) && isPlaying == old(isPlaying) &&
        currentAudio == old(currentAudio) && currentSpeaker == old(currentSpeaker) &&
        notifications == old(notifications) && enqueued == old(enqueued) &&
        departed == old(departed)
      ensures old(GenerateSpeech(synthesis)).Some? ==>
        enqueued == old(enqueued) + [request.messageId]
      ensures old(GenerateSpeech(synthesis)).Some? && old(isPlaying) ==>
        audioQueue == old(audioQueue) + [QueueItem(synthesis.value, request.messageId, request.agentName)] &&
        isPlaying && currentAudio == old(currentAudio) && currentSpeaker == old(currentSpeaker) &&
        notifications == old(notifications) && departed == old(departed)
      ensures old(GenerateSpeech(synthesis)).Some? && !old(isPlaying) ==>
        audioQueue == old(audioQueue) == [] &&
        isPlaying && currentAudio == synthesis &&
        currentSpeaker == Some(request.agentName) &&
        notifications == old(notifications) + [Notification(Some(request.agentName), speakingCallbacks)] &&
        departed == old(departed) + [Played(request.messageId)]
    {
      var audio := GenerateSpeech(synthesis);
      if audio.None? {
        return;
      }
      var item := QueueItem(audio.value, request.messageId, request.agentName);
      audioQueue := audioQueue + [item];
      enqueued := enqueued + [request.messageId];
      assert Ids(audioQueue) == Ids(old(audioQueue)) + [request.messageId];
      if !isPlaying {
        PlayNext();
      }
    }

    /**
     * Advances playback: on an empty queue the service becomes idle and
     * broadcasts `None`; otherwise exactly the head is removed, made current
     * and announced.
     */
    method PlayNext()
      requires Consistent()
      modifies this`audioQueue, this`isPlaying, this`currentAudio, this`currentSpeaker,
               this`notifications, this`departed
      ensures Valid()
      ensures AdvancedFrom(old(audioQueue), old(departed), old(notifications))
    {
      if |audioQueue| == 0 {
        isPlaying := false;
        currentAudio := None;
        NotifySpeakingChange(None);
        return;
      }
      isPlaying := true;
      var item := audioQueue[0];
      audioQueue := audioQueue[1..];
      departed := departed + [Played(item.messageId)];
      assert DepartedIds(departed) == DepartedIds(old(departed)) + [item.messageId];
      assert Ids(old(audioQueue)) == [item.messageId] + Ids(audioQueue);
      currentAudio := Some(item.audio);
      NotifySpeakingChange(Some(item.agentName));
    }

    /** The current audio ended, errored, or refused to start: advance.  Only a current audio raises these events. */
    method OnPlaybackFinished()
      requires Valid()
      requires currentAudio.Some?
      modifies this`audioQueue, this`isPlaying, this`currentAudio, this`currentSpeaker,
               this`notifications, this`departed
      ensures Valid()
      ensures AdvancedFrom(old(audioQueue), old(departed), old(notifications))
    {
      PlayNext();
    }

    /**
     * Stops the current audio, tears down every queued item (recorded as
     * discarded, in queue order), and becomes idle with `None` broadcast.
     */
    method StopAll()
      requires Valid()
      modifies this`audioQueue, this`isPlaying, this`currentAudio, this`currentSpeaker,
               this`notifications, this`departed
      ensures Valid()
      ensures audioQueue == [] && !isPlaying && currentAudio == None && currentSpeaker == None
      ensures notifications == old(notifications) + [Notification(None, speakingCallbacks)]
      ensures departed == old(departed) + Discards(old(audioQueue))
      ensures PlaybackOrder() == old(PlaybackOrder())
    {
      if currentAudio.Some? {
        currentAudio := None;
      }
      var i := 0;
      while i < |audioQueue|
        invariant 0 <= i <= |audioQueue|
        invariant audioQueue == old(audioQueue) && currentAudio == None
        invariant notifications == old(notifications)
        invariant departed == old(departed) + Discards(audioQueue[..i])
      {
        assert audioQueue[..i + 1] == audioQueue[..i] + [audioQueue[i]];
        assert Discards(audioQueue[..i + 1]) == Discards(audioQueue[..i]) + [Discarded(audioQueue[i].messageId)];
        departed := departed + [Discarded(audioQueue[i].messageId)];
        i := i + 1;
      }
      assert audioQueue[..i] == old(audioQueue);
      assert DepartedIds(departed) == DepartedIds(old(departed)) + Ids(old(audioQueue));
      PlayedIdsIgnoresDiscards(old(departed), old(audioQueue));
      audioQueue := [];
      isPlaying := false;
      NotifySpeakingChange(None);
    }

    /** Without a current audio nothing happens; otherwise playback advances. */
    method SkipCurrent()
      requires Valid()
      modifies this`audioQueue, this`isPlaying, this`currentAudio, this`currentSpeaker,
               this`notifications, this`departed
      ensures Valid()
      ensures old(currentAudio) == None ==>
        audioQueue == old(audioQueue) && isPlaying == old(isPlaying) &&
        currentAudio == old(currentAudio) && currentSpeaker == old(currentSpeaker) &&
        notifications == old(notifications) && departed == old(departed)
      ensures old(currentAudio).Some? ==>
        AdvancedFrom(old(audioQueue), old(departed), old(notifications))
    {
      if currentAudio.Some? {
        PlayNext();
      }
    }

    method GetQueueLength() returns (n: nat)
      ensures n == |audioQueue|
    {
      n := |audioQueue|;
    }

    method IsCurrentlyPlaying() returns (r: bool)
      requires Valid()
      ensures r == isPlaying
      ensures r <==> currentAudio.Some?
      ensures !r ==> audioQueue == []
    {
      r := isPlaying;
    }

    /** Same effect as `StopAll`, which is all it does. */
    method ClearQueue()
      requires Valid()
      modifies this`audioQueue, this`isPlaying, this`currentAudio, this`currentSpeaker,
               this`notifications, this`departed
      ensures Valid()
      ensures audioQueue == [] && !isPlaying && currentAudio == None && currentSpeaker == None
      ensures notifications == old(notifications) + [Notification(None, speakingCallbacks)]
      ensures departed == old(departed) + Discards(old(audioQueue))
      ensures PlaybackOrder() == old(PlaybackOrder())
    {
      StopAll();
    }
  }

  /**
   * FIFO: as long as nothing was discarded, the ids that became current are
   * exactly the enqueued ids minus those still waiting, in enqueue order.
   */
  lemma PlaybackOrderIsEnqueueOrder(svc: TTSService)
    requires svc.Valid()
    requires forall i :: 0 <= i < |svc.departed| ==> svc.departed[i].Played?
    ensures svc.enqueued == svc.PlaybackOrder() + Ids(svc.audioQueue)
  {
    PlayedIdsWithoutDiscards(svc.departed);
  }

  /**
   * Three successful requests made while idle are voiced in request order,
   * each announced as it starts, and `None` is announced once the last ends.
   */
  method PlaybackOrderScenario(a: SpeechRequest, b: SpeechRequest, c: SpeechRequest,
                               ha: AudioHandle, hb: AudioHandle, hc: AudioHandle)
    returns (speakers: seq<Option<string>>, lengths: seq<nat>)
    ensures speakers == [Some(a.agentName), Some(b.agentName), Some(c.agentName), None]
    ensures lengths == [2, 1, 0, 0]
  {
    var svc := new TTSService();
    svc.QueueSpeech(a, Some(ha));
    svc.QueueSpeech(b, Some(hb));
    svc.QueueSpeech(c, Some(hc));
    var s1 := svc.GetCurrentSpeaker();
    var n1 := svc.GetQueueLength();
    svc.OnPlaybackFinished();
    var s2 := svc.GetCurrentSpeaker();
    var n2 := svc.GetQueueLength();
    svc.OnPlaybackFinished();
    var s3 := svc.GetCurrentSpeaker();
    var n3 := svc.GetQueueLength();
    svc.OnPlaybackFinished();
    var s4 := svc.GetCurrentSpeaker();
    var n4 := svc.GetQueueLength();
    speakers := [s1, s2, s3, s4];
    lengths := [n1, n2, n3, n4];
  }

  /**
   * After three successful requests, `stopAll` leaves an empty queue, nothing
   * playing and no speaker; a disabled service then ignores further requests.
   */
  method StopAndDisableScenario(a: SpeechRequest, b: SpeechRequest, c: SpeechRequest,
                                ha: AudioHandle, hb: AudioHandle, hc: AudioHandle)
    returns (stoppedLength: nat, stoppedPlaying: bool, stoppedSpeaker: Option<string>,
             disabledLength: nat, disabledPlaying: bool)
    ensures stoppedLength == 0 && !stoppedPlaying && stoppedSpeaker == None
    ensures disabledLength == 0 && !disabledPlaying
  {
    var svc := new TTSService();
    svc.QueueSpeech(a, Some(ha));
    svc.QueueSpeech(b, Some(hb));
    svc.QueueSpeech(c, Some(hc));
    svc.StopAll();
    stoppedLength := svc.GetQueueLength();
    stoppedPlaying := svc.IsCurrentlyPlaying();
    stoppedSpeaker := svc.GetCurrentSpeaker();
    svc.SetEnabled(false);
    svc.QueueSpeech(a, Some(ha));
    svc.QueueSpeech(b, Some(hb));
    disabledLength := svc.GetQueueLength();
    disabledPlaying := svc.IsCurrentlyPlaying();
  }
}
