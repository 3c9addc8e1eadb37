/**
 Progress cards of card_progress.py in local-card mode: hooks and drains as atomic steps, each one
 a section under the controller's lock or one answer of the server.
 */
module CardProgress {
  import opened Wrappers
  import opened OrderedDict

  const MAX_PROGRESS_TOOL_ENTRIES: nat := 32
  const MAX_PROGRESS_EDIT_EXHAUSTIONS: nat := 2

  datatype Key = Key(session: string, turn: string, segment: nat)

  /** Thinking steps and tool calls never share an id. */
  datatype StepId = Thought(call: string) | ToolCall(call: string)

  datatype Status = Running | Succeeded | Broken

  type Tools = Dict<StepId, Status>

  datatype Phase = Thinking | UsingTool | Answering | Completed | Failed | Stopped | Erred

  /** What a card shows, and of which revision. */
  datatype Frame = Frame(revision: nat, final: bool, phase: Phase, tools: seq<(StepId, Status)>)

  /**
   One segment of a turn.  `ident` stands for the identity of the object; `asked`, which the source
   does not keep, is the last revision for which a delivery was asked.
   */
  datatype Turn = Turn(ident: nat, adapter: nat, chat: string, requester: string, tools: Tools,
                       revision: nat, delivered: int, messageId: Option<string>, cardSeq: nat, scheduled: bool,
                       sendStarted: bool, final: bool, phase: Phase, configured: bool, asked: int)

  /** What a drain took with it when it last held the lock. */
  datatype Snap = Snap(ident: nat, messageId: Option<string>, nextSeq: nat, configured: bool, frame: Frame)

  /** Where a drain is between two locked sections. */
  datatype Place =
    | Top
    | Snapped(snap: Snap)
    | Sending(snap: Snap)
    | Shown(snap: Snap, sentAs: Option<string>)

  datatype Drain = Drain(key: Key, place: Place, exhaustions: nat)

  /** What the server and the end of a turn saw, for the record. */
  datatype Note =
    | Sent(ident: nat, frame: Frame)
    | Edited(ident: nat, seqNo: nat, frame: Frame)
    | Closed(ident: nat)
    | Dropped(ident: nat, why: Reason)

  /** Why a turn goes without its last frame having been shown. */
  datatype Reason = Offline | DeliveryFailed | Unschedulable | Cancelled | Blank | RolledAway

  /** `created` lists the keys of all turns ever made, by their identity. */
  datatype World = World(states: map<Key, Turn>, drains: map<nat, Drain>, created: seq<Key>, nextDrain: nat, log: seq<Note>)

  // ---- turns ----

  predicate HasRealTool(tools: Tools) {
    exists id <- tools.items :: id.ToolCall?
  }

  function Snapshot(tools: Tools): (r: seq<(StepId, Status)>)
    requires tools.Valid()
  {
    var first := if |tools.keys| > MAX_PROGRESS_TOOL_ENTRIES then |tools.keys| - MAX_PROGRESS_TOOL_ENTRIES else 0;
    seq(|tools.keys| - first, i requires 0 <= i < |tools.keys| - first =>
      assert tools.keys[first + i] in tools.keys; (tools.keys[first + i], tools.items[tools.keys[first + i]]))
  }

  function FrameOf(t: Turn): Frame
    requires t.tools.Valid()
  {
    Frame(t.revision, t.final, t.phase, Snapshot(t.tools))
  }

  function NewTurn(ident: nat, adapter: nat, chat: string, requester: string, configured: bool): Turn {
    Turn(ident, adapter, chat, requester, Empty(), 0, -1, None, 0, false, false, false, Thinking, configured, -1)
  }

  /** Every tool with its new status, in place. */
  function MapTools(tools: Tools, status: (StepId, Status) -> Status): (r: Tools)
    ensures tools.Valid() ==> r.Valid()
    ensures r.items.Keys == tools.items.Keys && r.keys == tools.keys
  {
    Dict(tools.keys, map id | id in tools.items :: status(id, tools.items[id]))
  }

  /** What is still running ends with the turn. */
  function EndRunning(tools: Tools, status: Status): Tools {
    MapTools(tools, (id, s) => if s == Running then status else s)
  }

  /** A card-authoring tool ends all thinking, and hides it when there is nothing else to show. */
  function EndThinking(tools: Tools): Tools {
    if HasRealTool(tools) then MapTools(tools, (id: StepId, s) => if id.Thought? then Succeeded else s) else Empty()
  }

  /** The latest thought that is still running. */
  function LastRunningThought(tools: Tools, keys: seq<StepId>): Option<StepId> {
    if keys == [] then None else
    var id := keys[|keys| - 1];
    if id.Thought? && id in tools.items && tools.items[id] == Running then Some(id)
    else LastRunningThought(tools, keys[..|keys| - 1])
  }

  function ThoughtToEnd(tools: Tools, call: Option<string>): Option<StepId> {
    if call.Some? && Thought(call.value) in tools.items then Some(Thought(call.value))
    else LastRunningThought(tools, tools.keys)
  }

  // ---- the controller ----

  function Remove(w: World, k: Key): World {
    w.(states := w.states - {k})
  }

  /** _drop_state_locked. */
  function Drop(w: World, k: Key, why: Reason): World {
    if k in w.states then Remove(w.(log := w.log + [Dropped(w.states[k].ident, why)]), k) else w
  }

  function SetTurn(w: World, k: Key, t: Turn): World {
    w.(states := w.states[k := t])
  }

  function NewDrain(w: World, k: Key): World {
    w.(drains := w.drains[w.nextDrain := Drain(k, Top, 0)], nextDrain := w.nextDrain + 1)
  }

  /** _schedule_locked: a drain runs already, there is nothing to show, or a new drain is started. */
  function Schedule(w: World, k: Key, accepts: bool): World {
    if k !in w.states then w else
    var t := w.states[k];
    if t.scheduled then SetTurn(w, k, t.(asked := t.revision))
    else if !HasRealTool(t.tools) then (if t.final then Drop(w, k, Blank) else w)
    else if accepts then NewDrain(SetTurn(w, k, t.(scheduled := true, asked := t.revision)), k)
    else Drop(w, k, Unschedulable)
  }

  predicate Live(states: map<Key, Turn>, k: Key) {
    k in states && !states[k].final
  }

  /** The live segment of the turn named, or of the session's only live turn. */
  ghost predicate Picks(states: map<Key, Turn>, session: string, turn: string, k: Key) {
    && session != "" && Live(states, k) && k.session == session
    && (if turn != "" && (exists x :: Live(states, x) && x.session == session && x.turn == turn)
        then k.turn == turn
        else forall x :: Live(states, x) && x.session == session ==> x.turn == k.turn)
    && (forall x :: Live(states, x) && x.session == session && x.turn == k.turn ==> x.segment <= k.segment)
  }

  // ---- hooks ----

  datatype Hook =
    | ModelStarted(call: string)
    | ModelFinished(thoughtCall: Option<string>, answering: bool, failed: bool)
    | ToolStarted(toolCall: string)
    | AuthoringStarted
    | ToolFinished(endedCall: string, toolFailed: bool)
    | Complete(terminal: Phase)

  function Bump(t: Turn): Turn {
    t.(revision := t.revision + 1)
  }

  /** What a hook makes of the turn, or None if it has nothing to do. */
  function Hooked(t: Turn, h: Hook): Option<Turn> {
    match h
    case ModelStarted(call) => Some(Bump(t.(tools := t.tools.Put(Thought(call), Running), phase := Thinking)))
    case ModelFinished(call, answering, failed) =>
      (match ThoughtToEnd(t.tools, call)
       case None => None
       case Some(id) => Some(Bump(t.(tools := t.tools.Put(id, if failed then Broken else Succeeded),
                                     phase := if answering then Answering else t.phase))))
    case ToolStarted(call) => Some(Bump(t.(tools := t.tools.Put(ToolCall(call), Running), phase := UsingTool)))
    case AuthoringStarted => Some(Bump(t.(tools := EndThinking(t.tools))))
    case ToolFinished(call, failed) =>
      if ToolCall(call) !in t.tools.items then None
      else Some(Bump(t.(tools := t.tools.Put(ToolCall(call), if failed then Broken else Succeeded))))
    case Complete(phase) => Some(Ended(t, phase, if phase == Completed then Succeeded else Broken))
  }

  function Ended(t: Turn, phase: Phase, status: Status): Turn {
    Bump(t.(tools := EndRunning(t.tools, status), final := true, phase := phase))
  }

  /** Thinking alone, and card authoring, do not ask for a delivery. */
  predicate Asks(h: Hook) {
    !h.ModelStarted? && !h.AuthoringStarted?
  }

  function OnTurn(w: World, k: Key, h: Hook, accepts: bool): World
    requires k in w.states
  {
    match Hooked(w.states[k], h)
    case None => w
    case Some(t) => if Asks(h) then Schedule(SetTurn(w, k, t), k, accepts) else SetTurn(w, k, t)
  }

  /** The segments of one turn. */
  predicate SameTurn(a: Key, b: Key) {
    a.session == b.session && a.turn == b.turn
  }

  ghost predicate IsNextKey(states: map<Key, Turn>, k: Key) {
    && (forall x <- states :: SameTurn(x, k) ==> x.segment < k.segment)
    && (k.segment == 0 || Key(k.session, k.turn, k.segment - 1) in states)
  }

  /** begin makes `k`: a first segment, or one more after the last if all are over. */
  ghost predicate Begins(w: World, k: Key) {
    && k.session != "" && k.turn != ""
    && (forall x <- w.states :: SameTurn(x, k) ==> w.states[x].final)
    && IsNextKey(w.states, k)
  }

  function BeginAt(w: World, k: Key, adapter: nat, chat: string, requester: string): World {
    AddTurn(w, k, NewTurn(|w.created|, adapter, chat, requester, false))
  }

  function AddTurn(w: World, k: Key, t: Turn): World {
    w.(states := w.states[k := t], created := w.created + [k])
  }

  /** rollover_for_inbound acts on the one live turn of a chat and requester. */
  ghost predicate OnlyCandidate(states: map<Key, Turn>, chat: string, requester: string, k: Key) {
    && chat != "" && requester != "" && k in states && RollsOver(states[k], chat, requester)
    && forall x <- states :: RollsOver(states[x], chat, requester) ==> x == k
  }

  predicate RollsOver(t: Turn, chat: string, requester: string) {
    !t.final && t.chat == chat && t.requester == requester
  }

  /** The turn goes on in a new segment, below what has come in; the old one stops. */
  function RolloverAt(w: World, k: Key, accepts: bool): World
    requires k in w.states
  {
    var t := w.states[k];
    if !HasRealTool(t.tools) && t.messageId.None? then w else
    var w1 := AddTurn(w, NextSegment(k), NewTurn(|w.created|, t.adapter, t.chat, t.requester, t.configured));
    if t.messageId.None? && !t.sendStarted then Drop(w1, k, RolledAway) else
    Schedule(SetTurn(w1, k, Ended(t, Stopped, Broken)), k, accepts)
  }

  function NextSegment(k: Key): Key {
    Key(k.session, k.turn, k.segment + 1)
  }

  // ---- drains ----

  datatype Outcome = Works | GivesUp | Throws

  /** What a drain meets: whether its adapter is going away, and how the server answers. */
  datatype Luck = Luck(offline: bool, outcome: Outcome, newId: string)

  function MoveDrain(w: World, d: nat, place: Place): World
    requires d in w.drains
  {
    w.(drains := w.drains[d := w.drains[d].(place := place)])
  }

  function EndDrain(w: World, d: nat): World {
    w.(drains := w.drains - {d})
  }

  function TakeSnap(t: Turn): Snap
    requires t.tools.Valid()
  {
    Snap(t.ident, t.messageId, t.cardSeq + 1, t.configured, FrameOf(t))
  }

  /** The turn the drain took its snapshot of is still there. */
  predicate StillThere(w: World, k: Key, s: Snap) {
    k in w.states && w.states[k].ident == s.ident
  }

  function AtTop(w: World, d: nat, luck: Luck): World
    requires d in w.drains && forall k <- w.states :: w.states[k].tools.Valid()
  {
    var k := w.drains[d].key;
    if k !in w.states then EndDrain(w, d)
    else if luck.offline then EndDrain(Drop(w, k, Offline), d)
    else MoveDrain(w, d, Snapped(TakeSnap(w.states[k])))
  }

  /** The card profile is fetched once per turn. */
  function Configure(w: World, d: nat, s: Snap, luck: Luck): World
    requires d in w.drains
  {
    var k := w.drains[d].key;
    if luck.outcome != Works then EndDrain(Drop(w, k, DeliveryFailed), d)
    else if !StillThere(w, k, s) then EndDrain(w, d)
    else MoveDrain(SetTurn(w, k, w.states[k].(configured := true)), d, Top)
  }

  function NothingToShow(w: World, d: nat, s: Snap): World
    requires d in w.drains
  {
    var k := w.drains[d].key;
    if !StillThere(w, k, s) then EndDrain(w, d) else
    var t := w.states[k].(delivered := s.frame.revision, scheduled := false);
    EndDrain(if t.final then Drop(w, k, Blank) else SetTurn(w, k, t), d)
  }

  function StartSend(w: World, d: nat, s: Snap): World
    requires d in w.drains
  {
    var k := w.drains[d].key;
    if StillThere(w, k, s) then MoveDrain(SetTurn(w, k, w.states[k].(sendStarted := true)), d, Sending(s))
    else EndDrain(w, d)
  }

  function Send(w: World, d: nat, s: Snap, luck: Luck): World
    requires d in w.drains
  {
    if luck.outcome == Works
    then MoveDrain(w, d, Shown(s, Some(luck.newId))).(log := w.log + [Sent(s.ident, s.frame)])
    else EndDrain(Drop(w, w.drains[d].key, DeliveryFailed), d)
  }

  function SendEdit(w: World, d: nat, s: Snap, luck: Luck): World
    requires d in w.drains
  {
    var drain := w.drains[d];
    match luck.outcome
    case Works =>
      w.(drains := w.drains[d := Drain(drain.key, Shown(s, None), 0)], log := w.log + [Edited(s.ident, s.nextSeq, s.frame)])
    case GivesUp => GiveUp(w, d)
    case Throws => EndDrain(Drop(w, drain.key, DeliveryFailed), d)
  }

  /** An edit whose retries ran out is tried again under the same number, but not forever. */
  function GiveUp(w: World, d: nat): World
    requires d in w.drains
  {
    if w.drains[d].exhaustions + 1 >= MAX_PROGRESS_EDIT_EXHAUSTIONS then EndDrain(Drop(w, w.drains[d].key, DeliveryFailed), d)
    else Retry(w, d)
  }

  function Retry(w: World, d: nat): World
    requires d in w.drains
  {
    w.(drains := w.drains[d := Drain(w.drains[d].key, Top, w.drains[d].exhaustions + 1)])
  }

  /** The turn after a delivery. */
  function Delivered(t: Turn, s: Snap, sentAs: Option<string>): Turn {
    if sentAs.Some? then t.(sendStarted := false, messageId := sentAs, delivered := s.frame.revision)
    else t.(cardSeq := s.nextSeq, delivered := s.frame.revision)
  }

  /** After a delivery the drain goes on if the turn has moved meanwhile, and ends otherwise. */
  function Commit(w: World, d: nat, s: Snap, sentAs: Option<string>): World
    requires d in w.drains
  {
    var k := w.drains[d].key;
    if !StillThere(w, k, s) then EndDrain(w, d) else
    var t := Delivered(w.states[k], s, sentAs);
    if t.revision != s.frame.revision then MoveDrain(SetTurn(w, k, t), d, Top)
    else if t.final then EndDrain(Remove(w, k), d).(log := w.log + [Closed(t.ident)])
    else EndDrain(SetTurn(w, k, t.(scheduled := false)), d)
  }

  function DrainStep(w: World, d: nat, luck: Luck): World
    requires d in w.drains && forall k <- w.states :: w.states[k].tools.Valid()
  {
    match w.drains[d].place
    case Top => AtTop(w, d, luck)
    case Snapped(s) =>
      if !s.configured then Configure(w, d, s, luck)
      else if s.frame.tools == [] then NothingToShow(w, d, s)
      else if s.messageId.None? then StartSend(w, d, s)
      else SendEdit(w, d, s, luck)
    case Sending(s) => Send(w, d, s, luck)
    case Shown(s, sentAs) => Commit(w, d, s, sentAs)
  }
}
