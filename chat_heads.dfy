/** The floating console heads of src/components/ChatHeads.tsx: the first
    six sessions as heads, the rest behind an overflow menu, unread badges,
    and the remove and select handlers. */
module ChatHeads {
  import opened Wrappers
  import opened Text
  import Console
  import Seqs

  datatype SessionStatus = Connected | Replay | Error | Idle

  datatype Session = Session(
    id: string,
    botId: string,
    botName: string,
    botInitial: string,
    runId: string,
    status: SessionStatus,
    mode: Console.ConsoleMode,
    unreadCount: nat,
    isPinned: bool)

  const MaxVisible: nat := 6

  /** `visibleSessions`: the first `min(6, n)` sessions. */
  function VisibleSessions(sessions: seq<Session>): (r: seq<Session>)
    ensures |r| == if |sessions| < MaxVisible then |sessions| else MaxVisible
    ensures r <= sessions
  {
    if |sessions| <= MaxVisible then sessions else sessions[..MaxVisible]
  }

  /** `overflowSessions`: whatever follows the sixth session. */
  function OverflowSessions(sessions: seq<Session>): (r: seq<Session>)
    ensures |r| == if |sessions| <= MaxVisible then 0 else |sessions| - MaxVisible
  {
    if |sessions| <= MaxVisible then [] else sessions[MaxVisible..]
  }

  /** Heads and overflow together are the session list, in order. */
  lemma SplitIsWhole(sessions: seq<Session>)
    ensures VisibleSessions(sessions) + OverflowSessions(sessions) == sessions
  {
  }

  /** The overflow control, shown with `+k` exactly when more than six sessions exist. */
  function OverflowLabel(sessions: seq<Session>): (r: Option<string>)
    ensures r.Some? <==> |sessions| > MaxVisible
    ensures r.Some? ==> |r.value| >= 2 && r.value[0] == '+' && ParseNatOf(r.value[1..]) == |sessions| - MaxVisible
  {
    var overflow := OverflowSessions(sessions);
    if |overflow| > 0 then
      ParseNatToString(|overflow|);
      Some("+" + NatToString(|overflow|))
    else None
  }

  /** Reading back a rendered counter. */
  function ParseNatOf(s: string): nat
  {
    if forall i :: 0 <= i < |s| ==> IsDigit(s[i]) then ParseNat(s) else 0
  }

  /** The badge on a head: hidden at zero, the number up to nine, `9+` above. */
  function HeadBadge(unread: nat): (r: Option<string>)
    ensures r.None? <==> unread == 0
    ensures unread > 9 ==> r == Some("9+")
    ensures 0 < unread <= 9 ==> |r.value| == 1 && IsDigit(r.value[0]) && DigitValue(r.value[0]) == unread
  {
    if unread == 0 then None
    else if unread > 9 then Some("9+")
    else
      NatToStringOneDigit(unread);
      Some(NatToString(unread))
  }

  /** The badge in the overflow menu, which is not capped. */
  function MenuBadge(unread: nat): (r: Option<string>)
    ensures r.None? <==> unread == 0
    ensures r.Some? ==> ParseNatOf(r.value) == unread
  {
    if unread == 0 then None
    else
      ParseNatToString(unread);
      Some(NatToString(unread))
  }

  /** The component renders nothing when there is no session or the sidebar is collapsed. */
  function Renders(sessions: seq<Session>, collapsed: bool): (r: bool)
    ensures r ==> |sessions| > 0
    ensures r <==> !collapsed && sessions != []
  {
    !(|sessions| == 0 || collapsed)
  }

  /** `handleRemoveSession(id)`: the sessions with another id, in their order. */
  function RemoveSession(sessions: seq<Session>, id: string): (r: seq<Session>)
    ensures Seqs.IsSubsequence(r, sessions)
    ensures forall i :: 0 <= i < |r| ==> r[i].id != id
    ensures forall i :: 0 <= i < |sessions| && sessions[i].id != id ==> sessions[i] in r
  {
    var keep := (s: Session) => s.id != id;
    Seqs.FilterIsSubsequence(sessions, keep);
    Seqs.Filter(sessions, keep)
  }

  /** Removing drops exactly the sessions carrying the id. */
  lemma RemoveSessionCount(sessions: seq<Session>, id: string)
    ensures |RemoveSession(sessions, id)| == |sessions| - Seqs.Count(sessions, (s: Session) => s.id == id)
  {
    Seqs.CountComplement(sessions, (s: Session) => s.id == id, (s: Session) => s.id != id);
  }

  /** The list update of `handleSelectSession`: the selected id's unread
      count drops to zero; nothing else changes. */
  function ClearUnread(sessions: seq<Session>, id: string): (r: seq<Session>)
    ensures |r| == |sessions|
    ensures forall i :: 0 <= i < |r| ==> r[i].(unreadCount := sessions[i].unreadCount) == sessions[i]
    ensures forall i :: 0 <= i < |r| ==>
      r[i].unreadCount == (if sessions[i].id == id then 0 else sessions[i].unreadCount)
  {
    seq(|sessions|, i requires 0 <= i < |sessions| =>
      if sessions[i].id == id then sessions[i].(unreadCount := 0) else sessions[i])
  }

  /** Selecting twice is selecting once. */
  lemma ClearUnreadIdempotent(sessions: seq<Session>, id: string)
    ensures ClearUnread(ClearUnread(sessions, id), id) == ClearUnread(sessions, id)
  {
  }

  class ChatHeadsState {
    var sessions: seq<Session>
    var showOverflow: bool

    constructor (initial: seq<Session>)
      ensures sessions == initial && !showOverflow
    {
      sessions := initial;
      showOverflow := false;
    }

    method HandleRemoveSession(id: string)
      modifies this`sessions
      ensures sessions == RemoveSession(old(sessions), id)
    {
      sessions := RemoveSession(sessions, id);
    }

    /** A click on a head: `onSelectSession` receives the session as shown,
        then its unread count is cleared. */
    method HandleSelectSession(session: Session) returns (notified: Session)
      modifies this`sessions
      ensures notified == session
      ensures sessions == ClearUnread(old(sessions), session.id)
    {
      notified := session;
      sessions := ClearUnread(sessions, session.id);
    }

    /** A click in the overflow menu also closes the menu. */
    method HandleSelectFromOverflow(session: Session) returns (notified: Session)
      modifies this
      ensures notified == session && !showOverflow
      ensures sessions == ClearUnread(old(sessions), session.id)
    {
      notified := HandleSelectSession(session);
      showOverflow := false;
    }

    method ToggleOverflow()
      modifies this`showOverflow
      ensures showOverflow == !old(showOverflow)
    {
      showOverflow := !showOverflow;
    }

    /** The overflow menu is open exactly while it is toggled on and there is an overflow. */
    function MenuShown(): (r: bool)
      reads this
      ensures r <==> showOverflow && |sessions| > MaxVisible
    {
      showOverflow && |OverflowSessions(sessions)| > 0
    }
  }
}
