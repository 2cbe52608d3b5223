/**
 * The shared voice-room component: the participant list with each
 * participant's mute and activity flags, the local mute and raised-hand
 * flags, and the list of raised hands. The signed-in user is the fixed id
 * 'current-user-id'. The simulated delays, the mock room and participants
 * and the random active speaker are left out; the room's start and the
 * clock are given in milliseconds.
 */
module VoiceRoom {
  import opened Shared
  import JsText
  import Lists
  import Clock

  /** The id the component uses for the signed-in user. */
  const CurrentUser := "current-user-id"

  /** One entry of the participant list; the display fields are kept as text. */
  datatype Participant = Participant(id: string, name: string, role: string, isMuted: bool, isActive: bool)

  predicate IsCurrent(p: Participant) {
    p.id == CurrentUser
  }

  /** `{...participant, isActive: active}`. */
  function WithActive(active: bool): Participant -> Participant {
    (p: Participant) => p.(isActive := active)
  }

  /** `{...participant, isMuted: muted}`. */
  function WithMuted(muted: bool): Participant -> Participant {
    (p: Participant) => p.(isMuted := muted)
  }

  /**
   * `isUserActive`: `participants.find(p => p.id === 'current-user-id')`,
   * and then that entry's `isActive`; with no such entry the result is
   * `undefined`, which the page treats as false.
   */
  function IsUserActive(participants: seq<Participant>): (r: bool)
    ensures r <==> var k := Lists.FirstIndex(participants, IsCurrent);
                   k >= 0 && participants[k].isActive
  {
    var k := Lists.FirstIndex(participants, IsCurrent);
    k >= 0 && participants[k].isActive
  }

  /** After every entry of the user is marked, the user is active exactly when the list holds an entry of theirs. */
  lemma ActiveAfterMarking(ps: seq<Participant>, active: bool)
    ensures IsUserActive(Lists.MapWhere(ps, IsCurrent, WithActive(active))) <==> active && exists i :: 0 <= i < |ps| && ps[i].id == CurrentUser
  {
    var qs := Lists.MapWhere(ps, IsCurrent, WithActive(active));
    assert forall i :: 0 <= i < |ps| ==> qs[i].id == ps[i].id && (IsCurrent(ps[i]) ==> qs[i].isActive == active);
    var k := Lists.FirstIndex(qs, IsCurrent);
    if k >= 0 {
      assert ps[k].id == CurrentUser;
    }
  }

  /**
   * `calculateDuration` for a room starting at `start` (ms): the whole
   * minutes elapsed, `Math.floor((now - start) / 60000)`.
   */
  function ElapsedMinutes(start: int, now: int): (m: int)
    ensures m * 60000 <= now - start < (m + 1) * 60000
  {
    (now - start) / 60000
  }

  /**
   * The text shown for `m` elapsed minutes: `Math.floor(m / 60)` hours
   * followed by "h " when positive, then `m % 60` (JavaScript's truncating
   * remainder) and "m".
   */
  function DurationText(m: int): string {
    var hours := m / 60;
    var minutes := Clock.JsRem(m, 60);
    (if hours > 0 then JsText.IntToString(hours) + "h " else "") + JsText.IntToString(minutes) + "m"
  }

  /** `calculateDuration`: '' until the room is loaded. */
  function CalculateDuration(start: Option<int>, now: int): (r: string)
    ensures start.None? <==> r == ""
  {
    match start
    case None => ""
    case Some(s) => DurationText(ElapsedMinutes(s, now))
  }

  /**
   * For a non-negative elapsed time the text gives back the whole hours and
   * the remaining minutes, and the hours part is there exactly when at
   * least an hour has passed.
   */
  lemma DurationReadsBack(m: nat)
    ensures var t := DurationText(m);
      var ms := JsText.NatToString(m % 60);
      var hs := if m >= 60 then JsText.NatToString(m / 60) + "h " else "";
      t == hs + ms + "m"
      && JsText.ParseInt(ms) == Some(m % 60) && m % 60 < 60
      && (m >= 60 ==> JsText.ParseInt(JsText.NatToString(m / 60)) == Some(m / 60))
      && (m / 60) * 60 + m % 60 == m
  {
    JsText.ParseIntToString(m % 60);
    JsText.ParseIntToString(m / 60);
  }

  /** A room whose start is still ahead shows no hours and a non-positive minute count. */
  lemma DurationBeforeStart(m: int)
    requires m < 0
    ensures DurationText(m) == JsText.IntToString(Clock.JsRem(m, 60)) + "m"
    ensures Clock.JsRem(m, 60) <= 0
  {
  }

  class VoiceRoomView {
    var scheduledFor: Option<int>
    var participants: seq<Participant>
    var isMuted: bool
    var isConnecting: bool
    var isRaiseHand: bool
    var raisedHands: seq<string>

    /** Not loaded, no participants, unmuted, with no hand raised. */
    constructor ()
      ensures scheduledFor.None? && participants == [] && !isMuted && !isConnecting
      ensures !isRaiseHand && raisedHands == []
    {
      scheduledFor := None;
      participants := [];
      isMuted := false;
      isConnecting := false;
      isRaiseHand := false;
      raisedHands := [];
    }

    /** The end of the fetch: the room's start time and its participant list. */
    method Load(start: int, ps: seq<Participant>)
      modifies this
      ensures scheduledFor == Some(start) && participants == ps
      ensures isMuted == old(isMuted) && isConnecting == old(isConnecting)
      ensures isRaiseHand == old(isRaiseHand) && raisedHands == old(raisedHands)
    {
      scheduledFor := Some(start);
      participants := ps;
    }

    /** `joinVoiceRoom`: every entry of the user becomes active; no other entry and no other field changes. */
    method Join()
      modifies this
      ensures participants == Lists.MapWhere(old(participants), IsCurrent, WithActive(true))
      ensures |participants| == |old(participants)|
      ensures forall i :: 0 <= i < |participants| ==>
        participants[i] == if IsCurrent(old(participants)[i]) then old(participants)[i].(isActive := true) else old(participants)[i]
      ensures !isConnecting
      ensures scheduledFor == old(scheduledFor) && isMuted == old(isMuted)
      ensures isRaiseHand == old(isRaiseHand) && raisedHands == old(raisedHands)
    {
      isConnecting := true;
      participants := Lists.MapWhere(participants, IsCurrent, WithActive(true));
      isConnecting := false;
    }

    /**
     * `leaveVoiceRoom`: every entry of the user becomes inactive and the
     * local mute flag is reset; the entry's own `isMuted` is left as it was.
     */
    method Leave()
      modifies this
      ensures participants == Lists.MapWhere(old(participants), IsCurrent, WithActive(false))
      ensures |participants| == |old(participants)|
      ensures forall i :: 0 <= i < |participants| ==>
        participants[i] == if IsCurrent(old(participants)[i]) then old(participants)[i].(isActive := false) else old(participants)[i]
      ensures !isMuted
      ensures scheduledFor == old(scheduledFor) && isConnecting == old(isConnecting)
      ensures isRaiseHand == old(isRaiseHand) && raisedHands == old(raisedHands)
    {
      participants := Lists.MapWhere(participants, IsCurrent, WithActive(false));
      isMuted := false;
    }

    /** The local mute flag agrees with every entry of the user. */
    ghost predicate MuteInStep()
      reads this
    {
      forall i :: 0 <= i < |participants| && IsCurrent(participants[i]) ==> participants[i].isMuted == isMuted
    }

    /**
     * `toggleMute`: the local flag flips and every entry of the user takes
     * the new value, so the two agree afterwards whatever they were before.
     */
    method ToggleMute()
      modifies this
      ensures isMuted == !old(isMuted) && MuteInStep()
      ensures |participants| == |old(participants)|
      ensures forall i :: 0 <= i < |participants| ==>
        participants[i] == if IsCurrent(old(participants)[i]) then old(participants)[i].(isMuted := isMuted) else old(participants)[i]
      ensures scheduledFor == old(scheduledFor) && isConnecting == old(isConnecting)
      ensures isRaiseHand == old(isRaiseHand) && raisedHands == old(raisedHands)
    {
      var muted := !isMuted;
      isMuted := muted;
      participants := Lists.MapWhere(participants, IsCurrent, WithMuted(muted));
    }

    /**
     * `toggleRaiseHand`: with the hand down the user's id is appended, with
     * it up every occurrence is removed; either way the flag is true exactly
     * when the list holds the id, and every other raised hand is kept.
     */
    method ToggleRaiseHand()
      modifies this
      ensures isRaiseHand == !old(isRaiseHand)
      ensures isRaiseHand <==> CurrentUser in raisedHands
      ensures forall id :: id != CurrentUser ==> (id in raisedHands <==> id in old(raisedHands))
      ensures !old(isRaiseHand) ==> raisedHands == old(raisedHands) + [CurrentUser]
      ensures old(isRaiseHand) ==> raisedHands == Lists.Without(old(raisedHands), CurrentUser)
      ensures scheduledFor == old(scheduledFor) && participants == old(participants)
      ensures isMuted == old(isMuted) && isConnecting == old(isConnecting)
    {
      var wasRaised := isRaiseHand;
      isRaiseHand := !wasRaised;
      if !wasRaised {
        raisedHands := raisedHands + [CurrentUser];
      } else {
        forall id | id != CurrentUser
          ensures id in Lists.Without(raisedHands, CurrentUser) <==> id in raisedHands
        {
          Lists.WithoutMembers(raisedHands, CurrentUser, id);
        }
        raisedHands := Lists.Without(raisedHands, CurrentUser);
      }
    }
  }
}
