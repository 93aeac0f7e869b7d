// The chat trigger protocol: a message is claimed, answered by a run or by a
// refusal, and the answer is posted, while any number of replicas interleave.
//
// Leases on replies are not modelled: two repliers may hold the same row at
// once, which is more than the leases allow.
module Chat {
  import opened Wrappers
  import opened Phases

  type MessageId = nat

  /** A row claimed from a message, or the follow-up a child run inherited. */
  datatype Key = Message(id: MessageId) | FollowUp(child: RunId)

  datatype Place = Place(channel: nat, thread: MessageId)

  datatype Refusal = LostClaim | Because(text: string)

  datatype Answer = Result(run: RunId) | Refused(refusal: Refusal)

  /** generation numbers the claims of a message: a purged row may be claimed again. */
  datatype Row = Row(
    place: Place, origin: Option<MessageId>, run: Option<RunId>, refusal: Option<Refusal>,
    replied: bool, abandoned: bool, attempts: nat, generation: nat, closedBy: Option<nat>)
  {
    predicate Undecided() { run.None? && refusal.None? }

    predicate Open() { !replied && !abandoned }

    function Answer(): Option<Answer> {
      if run.Some? then Some(Result(run.value))
      else if refusal.Some? then Some(Refused(refusal.value)) else None
    }
  }

  type Rows = map<Key, Row>

  // ---- the statements ------------------------------------------------------------

  /** INSERT … ON CONFLICT DO NOTHING. */
  function Claim(rows: Rows, id: MessageId, place: Place, generation: nat): Rows {
    if Message(id) in rows then rows
    else rows[Message(id) := Row(place, None, None, None, false, false, 0, generation, None)]
  }

  predicate Linkable(rows: Rows, key: Key) { key in rows && rows[key].Undecided() && rows[key].Open() }

  function Link(rows: Rows, key: Key, run: RunId): Rows
    requires key in rows
  {
    rows[key := rows[key].(run := Some(run))]
  }

  predicate Refusable(rows: Rows, key: Key) { key in rows && rows[key].Undecided() }

  function Refuse(rows: Rows, key: Key, refusal: Refusal): Rows {
    if Refusable(rows, key) then rows[key := rows[key].(refusal := Some(refusal))] else rows
  }

  function RowsOf(rows: Rows, run: RunId): set<Key> { set k | k in rows && rows[k].run == Some(run) }

  /** The message a row answers: its own, or the one its ancestor was claimed from. */
  function RootMessage(key: Key, row: Row): Option<MessageId> {
    if row.origin.Some? then row.origin else if key.Message? then Some(key.id) else None
  }

  /** INSERT … SELECT: the parent's row, if there is one, copied for the child. */
  ghost function Inherit(rows: Rows, parent: RunId, child: RunId, generation: nat): Rows {
    if RowsOf(rows, parent) == {} then rows
    else
      var k :| k in RowsOf(rows, parent);
      rows[FollowUp(child) :=
        Row(rows[k].place, RootMessage(k, rows[k]), Some(child), None, false, false, 0, generation, None)]
  }

  function MarkReplied(rows: Rows, key: Key, generation: nat): Rows {
    if key in rows && rows[key].Open()
    then rows[key := rows[key].(replied := true, attempts := rows[key].attempts + 1, closedBy := Some(generation))]
    else rows
  }

  function FailReply(rows: Rows, key: Key, abandon: bool, generation: nat): Rows {
    if key in rows && rows[key].Open()
    then rows[key := rows[key].(attempts := rows[key].attempts + 1, abandoned := abandon,
                                closedBy := if abandon then Some(generation) else None)]
    else rows
  }

  /** A run's deletion takes its row with it. */
  function Cascade(rows: Rows, run: RunId): Rows {
    map k | k in rows && rows[k].run != Some(run) :: rows[k]
  }

  function Purge(rows: Rows, aged: set<Key>): Rows {
    map k | k in rows && !(k in aged && rows[k].run.None? && !rows[k].Open()) :: rows[k]
  }

  // ---- the interleaving ------------------------------------------------------------

  datatype RunInfo = RunInfo(parent: Option<RunId>, ended: bool)

  /** One claim of one message, or one follow-up. */
  datatype Asked = Asked(key: Key, generation: nat)

  /** A reply under way: whose, and what it will say; None until an orphan's claim is converted. */
  datatype Reply = Reply(asked: Asked, answer: Option<Answer>)

  datatype Posted = Posted(asked: Asked, answer: Answer)

  /** decided is the first answer of each claim; posts everything ever posted. */
  datatype State = State(
    rows: Rows, runs: map<RunId, RunInfo>, generations: nat, handlers: set<Asked>, replies: map<nat, Reply>,
    decided: map<Asked, Answer>, posts: set<Posted>)

  datatype Step =
    | Claiming(id: MessageId, place: Place)
    | Starting(handler: Asked, run: RunId)
    | Refusing(handler: Asked, refusal: Refusal)
    | HandlerDies(handler: Asked)
    | StartingChild(parent: RunId, run: RunId)
    | StartingOther(run: RunId)
    | Becoming(run: RunId, ended: bool)
    | Taking(reply: nat, key: Key)
    | Converting(reply: nat)
    | Posting(reply: nat)
    | Marking(reply: nat)
    | Failing(reply: nat, abandon: bool)
    | Dropping(reply: nat)
    | DeletingRun(run: RunId)
    | Purging(keys: set<Key>)

  predicate Enabled(s: State, step: Step) {
    match step
    case Claiming(_, _) => true
    case Starting(handler, run) => handler in s.handlers && run !in s.runs
    case Refusing(handler, _) => handler in s.handlers
    case HandlerDies(handler) => handler in s.handlers
    case StartingChild(parent, run) => parent in s.runs && run !in s.runs
    case StartingOther(run) => run !in s.runs
    case Becoming(run, _) => run in s.runs
    case Taking(reply, key) =>
      && reply !in s.replies && key in s.rows && s.rows[key].Open()
      && (s.rows[key].run.Some? ==> s.rows[key].run.value in s.runs && s.runs[s.rows[key].run.value].ended)
    case Converting(reply) => reply in s.replies && s.replies[reply].answer.None?
    case Posting(reply) => reply in s.replies && s.replies[reply].answer.Some?
    case Marking(reply) => reply in s.replies && s.replies[reply].answer.Some?
    case Failing(reply, _) => reply in s.replies && s.replies[reply].answer.Some?
    case Dropping(reply) => reply in s.replies
    case DeletingRun(run) => run in s.runs
    case Purging(_) => true
  }

  /** The first answer of the row a statement decided, filed under the claim it answers. */
  function Decide(decided: map<Asked, Answer>, rows: Rows, key: Key): map<Asked, Answer>
    requires key in rows && rows[key].Answer().Some?
  {
    decided[Asked(key, rows[key].generation) := rows[key].Answer().value]
  }

  ghost function Next(s: State, step: Step): State
    requires Enabled(s, step)
  {
    match step
    case Claiming(id, place) =>
      if Message(id) in s.rows then s
      else s.(rows := Claim(s.rows, id, place, s.generations), generations := s.generations + 1,
              handlers := s.handlers + {Asked(Message(id), s.generations)})
    case Starting(handler, run) =>
      if !Linkable(s.rows, handler.key) then s.(handlers := s.handlers - {handler})
      else
        var rows := Link(s.rows, handler.key, run);
        s.(rows := rows, runs := s.runs[run := RunInfo(None, false)], handlers := s.handlers - {handler},
           decided := Decide(s.decided, rows, handler.key))
    case Refusing(handler, refusal) => Settled(s, handler.key, refusal).(handlers := s.handlers - {handler})
    case HandlerDies(handler) => s.(handlers := s.handlers - {handler})
    case StartingChild(parent, run) =>
      var rows := Inherit(s.rows, parent, run, s.generations);
      s.(rows := rows, runs := s.runs[run := RunInfo(Some(parent), false)], generations := s.generations + 1,
         decided := if FollowUp(run) in rows && rows[FollowUp(run)].Answer().Some?
                    then Decide(s.decided, rows, FollowUp(run)) else s.decided)
    case StartingOther(run) => s.(runs := s.runs[run := RunInfo(None, false)])
    case Becoming(run, ended) => s.(runs := s.runs[run := s.runs[run].(ended := ended)])
    case Taking(reply, key) =>
      s.(replies := s.replies[reply := Reply(Asked(key, s.rows[key].generation), s.rows[key].Answer())])
    case Converting(reply) =>
      var key := s.replies[reply].asked.key;
      if !Refusable(s.rows, key) then s.(replies := s.replies - {reply})
      else Settled(s, key, LostClaim).(replies :=
        s.replies[reply := Reply(Asked(key, s.rows[key].generation), Some(Refused(LostClaim)))])
    case Posting(reply) =>
      s.(posts := s.posts + {Posted(s.replies[reply].asked, s.replies[reply].answer.value)})
    case Marking(reply) =>
      var asked := s.replies[reply].asked;
      s.(rows := MarkReplied(s.rows, asked.key, asked.generation), replies := s.replies - {reply})
    case Failing(reply, abandon) =>
      var asked := s.replies[reply].asked;
      s.(rows := FailReply(s.rows, asked.key, abandon, asked.generation), replies := s.replies - {reply})
    case Dropping(reply) => s.(replies := s.replies - {reply})
    case DeletingRun(run) =>
      s.(rows := Cascade(s.rows, run),
         runs := map r | r in s.runs && r != run ::
           if s.runs[r].parent == Some(run) then s.runs[r].(parent := None) else s.runs[r])
    case Purging(keys) => s.(rows := Purge(s.rows, keys))
  }

  function Settled(s: State, key: Key, refusal: Refusal): State {
    if !Refusable(s.rows, key) then s
    else
      var rows := Refuse(s.rows, key, refusal);
      s.(rows := rows, decided := Decide(s.decided, rows, key))
  }

  /** chat_triggers_run: the unique index on run_id. */
  predicate OneRowARun(rows: Rows) {
    forall a, b | a in rows && b in rows && rows[a].run.Some? && rows[a].run == rows[b].run :: a == b
  }

  // ---- the invariant ------------------------------------------------------------------

  predicate RowOk(s: State, k: Key, row: Row) {
    && (row.run.None? || row.refusal.None?) && !(row.replied && row.abandoned)
    && row.generation < s.generations
    && (if k.FollowUp? then row.run == Some(k.child) && row.origin.Some? else row.origin.None?)
    && (row.run.Some? ==> row.run.value in s.runs)
    && (Asked(k, row.generation) in s.decided <==> row.Answer().Some?)
    && (row.Answer().Some? ==> s.decided[Asked(k, row.generation)] == row.Answer().value)
    && (row.replied || row.abandoned ==> row.closedBy.Some?)
    && (row.closedBy == Some(row.generation) ==> row.Answer().Some?)
  }

  predicate ReplyOk(s: State, reply: Reply) {
    && reply.asked.generation < s.generations
    && (reply.answer.Some? ==> reply.asked in s.decided && s.decided[reply.asked] == reply.answer.value)
  }

  predicate PostOk(s: State, post: Posted) {
    post.asked in s.decided && s.decided[post.asked] == post.answer
  }

  /** A child of a run that owes a reply owes the same one, on one row of its own, and no other child owes any. */
  predicate ChildOwes(s: State, child: RunId, parent: RunId) {
    forall k | k in s.rows && s.rows[k].run == Some(parent) ::
      && FollowUp(child) in s.rows
      && s.rows[FollowUp(child)].place == s.rows[k].place
      && s.rows[FollowUp(child)].origin == RootMessage(k, s.rows[k])
  }

  predicate HasRow(rows: Rows, run: RunId) { exists k | k in rows :: rows[k].run == Some(run) }

  predicate ChildOwesNothing(s: State, child: RunId, parent: RunId) {
    HasRow(s.rows, child) ==> HasRow(s.rows, parent)
  }

  predicate Tree(s: State) {
    forall c | c in s.runs && s.runs[c].parent.Some? ::
      && s.runs[c].parent.value in s.runs && c != s.runs[c].parent.value
      && ChildOwes(s, c, s.runs[c].parent.value) && ChildOwesNothing(s, c, s.runs[c].parent.value)
  }

  predicate Inv(s: State) {
    && OneRowARun(s.rows) && Tree(s)
    && (forall k | k in s.rows :: RowOk(s, k, s.rows[k]))
    && (forall r | r in s.replies :: ReplyOk(s, s.replies[r]))
    && (forall p | p in s.posts :: PostOk(s, p))
    && (forall a | a in s.decided :: a.generation < s.generations)
  }

  // ---- every step keeps it --------------------------------------------------------------

  const Empty := State(map[], map[], 0, {}, map[], map[], {})

  lemma BeginningInv()
    ensures Inv(Empty)
  {}

  lemma ClaimingKeeps(s: State, step: Step)
    requires Inv(s) && Enabled(s, step) && step.Claiming?
    ensures Inv(Next(s, step))
  {
    var next := Next(s, step);
    forall k | k in next.rows ensures RowOk(next, k, next.rows[k]) {
      if k in s.rows { assert RowOk(s, k, s.rows[k]); }
    }
    TreeStays(s, next);
  }

  /** Nothing a step did to rows or runs touches who owes what to whom. */
  lemma TreeStays(s: State, next: State)
    requires Tree(s)
    requires forall k | k in s.rows && s.rows[k].run.Some? ::
      k in next.rows && next.rows[k].run == s.rows[k].run && next.rows[k].place == s.rows[k].place
      && next.rows[k].origin == s.rows[k].origin
    requires forall k | k in next.rows && next.rows[k].run.Some? :: k in s.rows && s.rows[k].run == next.rows[k].run
    requires next.runs.Keys == s.runs.Keys && forall r | r in s.runs :: next.runs[r].parent == s.runs[r].parent
    requires forall k: Key {:trigger k in s.rows} | k.FollowUp? && k in s.rows :: s.rows[k].run.Some?
    ensures Tree(next)
  {
    forall c | c in next.runs && next.runs[c].parent.Some?
      ensures ChildOwes(next, c, next.runs[c].parent.value) && ChildOwesNothing(next, c, next.runs[c].parent.value)
    {
      var p := s.runs[c].parent.value;
      assert ChildOwes(s, c, p) && ChildOwesNothing(s, c, p);
      if HasRow(next.rows, c) {
        SameRow(next.rows, s.rows, c);
        SameRow(s.rows, next.rows, p);
      }
    }
  }

  /** A statement gave an undecided row its answer. */
  lemma DecidingKeepsRows(s: State, next: State, key: Key, row: Row)
    requires Inv(s) && key in s.rows && s.rows[key].Undecided() && key.Message?
    requires next.rows == s.rows[key := row] && row == s.rows[key].(run := row.run, refusal := row.refusal)
    requires row.Answer().Some? && (row.run.None? || row.refusal.None?) && (row.run.Some? ==> row.run.value in next.runs)
    requires next.decided == Decide(s.decided, next.rows, key)
    requires next.generations == s.generations && s.runs.Keys <= next.runs.Keys
    ensures forall k | k in next.rows :: RowOk(next, k, next.rows[k])
    ensures forall a | a in s.decided :: a in next.decided && next.decided[a] == s.decided[a]
    ensures forall a | a in next.decided :: a.generation < next.generations
  {
    assert RowOk(s, key, s.rows[key]);
    assert Asked(key, s.rows[key].generation) !in s.decided;
    forall k | k in next.rows ensures RowOk(next, k, next.rows[k]) {
      assert RowOk(s, k, s.rows[k]);
    }
  }

  /** Replies and posts rest on decisions, which are never taken back. */
  lemma DecisionsStand(s: State, next: State)
    requires Inv(s) && next.replies == s.replies && next.posts == s.posts && next.generations >= s.generations
    requires forall a | a in s.decided :: a in next.decided && next.decided[a] == s.decided[a]
    ensures forall r | r in next.replies :: ReplyOk(next, next.replies[r])
    ensures forall p | p in next.posts :: PostOk(next, p)
  {
    forall r | r in s.replies ensures ReplyOk(next, s.replies[r]) { assert ReplyOk(s, s.replies[r]); }
    forall p | p in s.posts ensures PostOk(next, p) { assert PostOk(s, p); }
  }

  lemma SettledKeeps(s: State, key: Key, refusal: Refusal)
    requires Inv(s)
    ensures var next := Settled(s, key, refusal);
      && Inv(next) && next.replies == s.replies && next.generations == s.generations
      && (Refusable(s.rows, key) ==>
            && key in next.rows && next.rows[key].generation == s.rows[key].generation
            && Asked(key, s.rows[key].generation) in next.decided
            && next.decided[Asked(key, s.rows[key].generation)] == Refused(refusal))
  {
    if Refusable(s.rows, key) {
      var next := Settled(s, key, refusal);
      assert RowOk(s, key, s.rows[key]);
      assert next.rows == s.rows[key := s.rows[key].(refusal := Some(refusal))];
      DecidingKeepsRows(s, next, key, next.rows[key]);
      DecisionsStand(s, next);
      forall k: Key | k.FollowUp? && k in s.rows ensures s.rows[k].run.Some? { assert RowOk(s, k, s.rows[k]); }
      TreeStays(s, next);
    }
  }

  lemma StartingKeeps(s: State, step: Step)
    requires Inv(s) && Enabled(s, step) && step.Starting?
    ensures Inv(Next(s, step))
  {
    var next, key := Next(s, step), step.handler.key;
    if Linkable(s.rows, key) {
      assert RowOk(s, key, s.rows[key]);
      assert next.rows == s.rows[key := s.rows[key].(run := Some(step.run))];
      DecidingKeepsRows(s, next, key, next.rows[key]);
      DecisionsStand(s, next);
      NewRunHasNoRow(s, step.run);
      NewRunKeepsTree(s, next, step.run);
    } else {
      TreeStaysWhole(s, next);
    }
  }

  lemma NewRunHasNoRow(s: State, run: RunId)
    requires Inv(s) && run !in s.runs
    ensures FollowUp(run) !in s.rows && forall k | k in s.rows :: s.rows[k].run != Some(run)
  {
    forall k | k in s.rows ensures s.rows[k].run != Some(run) && k != FollowUp(run) {
      assert RowOk(s, k, s.rows[k]);
    }
  }

  lemma TreeStaysWhole(s: State, next: State)
    requires Inv(s) && next.rows == s.rows && next.runs.Keys == s.runs.Keys
    requires forall r | r in s.runs :: next.runs[r].parent == s.runs[r].parent
    requires next.generations == s.generations && next.decided == s.decided
    ensures Tree(next) && forall k | k in next.rows :: RowOk(next, k, next.rows[k])
  {
    forall k | k in s.rows ensures RowOk(next, k, s.rows[k]) && (k.FollowUp? ==> s.rows[k].run.Some?) {
      assert RowOk(s, k, s.rows[k]);
    }
    TreeStays(s, next);
  }

  /** A new run without a parent, with or without a row of its own, is nobody's child and nobody's parent. */
  lemma NewRunKeepsTree(s: State, next: State, run: RunId)
    requires Tree(s) && run !in s.runs && next.runs == s.runs[run := RunInfo(None, false)]
    requires forall k | k in s.rows && s.rows[k].run.Some? :: k in next.rows && next.rows[k] == s.rows[k]
    requires forall k | k in next.rows && next.rows[k].run.Some? && next.rows[k].run != Some(run) ::
      k in s.rows && s.rows[k] == next.rows[k]
    requires forall k: Key {:trigger k in s.rows} | k.FollowUp? && k in s.rows :: s.rows[k].run.Some?
    ensures Tree(next)
  {
    forall c | c in next.runs && next.runs[c].parent.Some?
      ensures ChildOwes(next, c, next.runs[c].parent.value) && ChildOwesNothing(next, c, next.runs[c].parent.value)
    {
      assert ChildOwes(s, c, s.runs[c].parent.value) && ChildOwesNothing(s, c, s.runs[c].parent.value);
    }
  }

  lemma StartingOtherKeeps(s: State, step: Step)
    requires Inv(s) && Enabled(s, step) && step.StartingOther?
    ensures Inv(Next(s, step))
  {
    var next := Next(s, step);
    forall k | k in s.rows ensures RowOk(next, k, s.rows[k]) && (k.FollowUp? ==> s.rows[k].run.Some?) {
      assert RowOk(s, k, s.rows[k]);
    }
    DecisionsStand(s, next);
    NewRunKeepsTree(s, next, step.run);
  }

  lemma StartingChildKeeps(s: State, step: Step)
    requires Inv(s) && Enabled(s, step) && step.StartingChild?
    ensures Inv(Next(s, step))
  {
    var next, key := Next(s, step), FollowUp(step.run);
    NewRunHasNoRow(s, step.run);
    forall k | k in next.rows ensures RowOk(next, k, next.rows[k]) {
      if k in s.rows { assert RowOk(s, k, s.rows[k]); }
    }
    DecisionsStand(s, next);
    NewChildKeepsTree(s, next, step.parent, step.run);
  }

  lemma SameRow(rows: Rows, next: Rows, run: RunId)
    requires HasRow(rows, run)
    requires forall k | k in rows && rows[k].run == Some(run) :: k in next && next[k].run == Some(run)
    ensures HasRow(next, run)
  {
    var k :| k in rows && rows[k].run == Some(run);
    assert k in next;
  }

  /** The child of a run that owes a reply inherits it; nobody else's debts change. */
  lemma NewChildKeepsTree(s: State, next: State, parent: RunId, child: RunId)
    requires Inv(s) && parent in s.runs && child !in s.runs && FollowUp(child) !in s.rows
    requires next.runs == s.runs[child := RunInfo(Some(parent), false)]
    requires next.rows == Inherit(s.rows, parent, child, s.generations)
    requires forall k | k in s.rows :: s.rows[k].run != Some(child)
    ensures Tree(next)
  {
    forall k | k in s.rows && s.rows[k].run == Some(parent) ensures k in RowsOf(s.rows, parent) {}
    assert ChildOwes(next, child, parent);
    forall r | HasRow(s.rows, r) ensures HasRow(next.rows, r) { SameRow(s.rows, next.rows, r); }
    forall r | r != child && HasRow(next.rows, r) ensures HasRow(s.rows, r) {
      var k :| k in next.rows && next.rows[k].run == Some(r);
    }
    if k :| k in RowsOf(s.rows, parent) {
      assert HasRow(s.rows, parent);
    }
    forall c | c in s.runs && s.runs[c].parent.Some?
      ensures s.runs[c].parent.value in next.runs && c != s.runs[c].parent.value
      ensures ChildOwes(next, c, s.runs[c].parent.value) && ChildOwesNothing(next, c, s.runs[c].parent.value)
    {
      assert ChildOwes(s, c, s.runs[c].parent.value) && ChildOwesNothing(s, c, s.runs[c].parent.value);
    }
  }

  /** Taking up, converting, posting and dropping a reply. */
  lemma ReplyingKeeps(s: State, step: Step)
    requires Inv(s) && Enabled(s, step)
    requires step.Taking? || step.Converting? || step.Posting? || step.Dropping?
    ensures Inv(Next(s, step))
  {
    var next := Next(s, step);
    match step {
      case Taking(_, key) =>
        assert RowOk(s, key, s.rows[key]);
        TreeStaysWhole(s, next);
      case Converting(reply) =>
        SettledKeeps(s, s.replies[reply].asked.key, LostClaim);
        var key := s.replies[reply].asked.key;
        if key in s.rows { assert RowOk(s, key, s.rows[key]); }
        TreeStaysWhole(Settled(s, key, LostClaim), next);
      case Posting(reply) =>
        assert ReplyOk(s, s.replies[reply]);
        TreeStaysWhole(s, next);
      case _ => TreeStaysWhole(s, next);
    }
  }

  lemma ClosingKeeps(s: State, step: Step)
    requires Inv(s) && Enabled(s, step) && (step.Marking? || step.Failing?)
    ensures Inv(Next(s, step))
  {
    var next, reply := Next(s, step), s.replies[step.reply];
    var key := reply.asked.key;
    assert ReplyOk(s, reply);
    if key in s.rows && s.rows[key].Open() {
      var row := next.rows[key];
      assert RowOk(s, key, s.rows[key]);
      ClosedRowOk(s, key, s.rows[key], row);
      ClosedKeeps(s, s.(rows := s.rows[key := row]), key, row);
      assert next == s.(rows := s.rows[key := row]).(replies := next.replies);
    } else {
      assert next == s.(replies := next.replies);
    }
  }

  lemma ClosedRowOk(s: State, key: Key, row: Row, closed: Row)
    requires RowOk(s, key, row) && closed == row.(replied := closed.replied, abandoned := closed.abandoned,
                                                  attempts := closed.attempts, closedBy := closed.closedBy)
    requires !(closed.replied && closed.abandoned) && (closed.replied || closed.abandoned ==> closed.closedBy.Some?)
    requires closed.closedBy == Some(row.generation) ==> Asked(key, row.generation) in s.decided
    ensures RowOk(s, key, closed)
  {}

  lemma ClosedKeeps(s: State, next: State, key: Key, row: Row)
    requires Inv(s) && key in s.rows && next == s.(rows := s.rows[key := row]) && RowOk(s, key, row)
    requires row.run == s.rows[key].run && row.place == s.rows[key].place && row.origin == s.rows[key].origin
    ensures Inv(next)
  {
    forall k | k in next.rows ensures RowOk(next, k, next.rows[k]) && (k.FollowUp? ==> s.rows[k].run.Some?) {
      assert RowOk(s, k, s.rows[k]);
    }
    TreeStays(s, next);
    DecisionsStand(s, next);
  }

  lemma DeletingKeeps(s: State, step: Step)
    requires Inv(s) && Enabled(s, step) && step.DeletingRun?
    ensures Inv(Next(s, step))
  {
    var next := Next(s, step);
    forall k | k in next.rows ensures RowOk(next, k, next.rows[k]) { assert RowOk(s, k, s.rows[k]); }
    DecisionsStand(s, next);
    forall c | c in next.runs && next.runs[c].parent.Some?
      ensures next.runs[c].parent.value in next.runs && c != next.runs[c].parent.value
      ensures ChildOwes(next, c, next.runs[c].parent.value) && ChildOwesNothing(next, c, next.runs[c].parent.value)
    {
      var p := s.runs[c].parent.value;
      assert ChildOwes(s, c, p) && ChildOwesNothing(s, c, p);
      if HasRow(next.rows, c) {
        SameRow(next.rows, s.rows, c);
        SameRow(s.rows, next.rows, p);
      }
      if FollowUp(c) in s.rows { assert RowOk(s, FollowUp(c), s.rows[FollowUp(c)]); }
    }
  }

  lemma PurgingKeeps(s: State, step: Step)
    requires Inv(s) && Enabled(s, step) && step.Purging?
    ensures Inv(Next(s, step))
  {
    var next := Next(s, step);
    forall k | k in s.rows ensures (k in next.rows ==> RowOk(next, k, next.rows[k])) && (k.FollowUp? ==> s.rows[k].run.Some?) {
      assert RowOk(s, k, s.rows[k]);
    }
    DecisionsStand(s, next);
    TreeStays(s, next);
  }

  lemma StepKeepsInv(s: State, step: Step)
    requires Inv(s) && Enabled(s, step)
    ensures Inv(Next(s, step))
  {
    match step
    case Claiming(_, _) => ClaimingKeeps(s, step);
    case Starting(_, _) => StartingKeeps(s, step);
    case Refusing(handler, refusal) => SettledKeeps(s, handler.key, refusal);
      TreeStaysWhole(Settled(s, handler.key, refusal), Next(s, step));
    case HandlerDies(_) => TreeStaysWhole(s, Next(s, step));
    case StartingChild(_, _) => StartingChildKeeps(s, step);
    case StartingOther(_) => StartingOtherKeeps(s, step);
    case Becoming(_, _) => TreeStaysWhole(s, Next(s, step)); DecisionsStand(s, Next(s, step));
    case Marking(_) => ClosingKeeps(s, step);
    case Failing(_, _) => ClosingKeeps(s, step);
    case DeletingRun(_) => DeletingKeeps(s, step);
    case Purging(_) => PurgingKeeps(s, step);
    case _ => ReplyingKeeps(s, step);
  }

  // ---- over every interleaving ------------------------------------------------------------

  ghost predicate AllEnabled(s: State, steps: seq<Step>)
    decreases |steps|
  {
    steps != [] ==> Enabled(s, steps[0]) && AllEnabled(Next(s, steps[0]), steps[1..])
  }

  ghost function Run(s: State, steps: seq<Step>): State
    requires AllEnabled(s, steps)
    decreases |steps|
  {
    if steps == [] then s else Run(Next(s, steps[0]), steps[1..])
  }

  lemma {:induction false} InvAlways(s: State, steps: seq<Step>)
    requires Inv(s) && AllEnabled(s, steps)
    ensures Inv(Run(s, steps))
    decreases |steps|
  {
    if steps != [] {
      StepKeepsInv(s, steps[0]);
      InvAlways(Next(s, steps[0]), steps[1..]);
    }
  }

  /**
   * One message, one answer: a row never holds a run and a refusal, nor is it
   * both replied to and given up on; a run has one row at most; and everything
   * ever posted for a claim says the one thing that was decided for it.
   */
  lemma OneAnswer(steps: seq<Step>)
    requires AllEnabled(Empty, steps)
    ensures var s := Run(Empty, steps);
      && (forall k | k in s.rows :: (s.rows[k].run.None? || s.rows[k].refusal.None?)
                                    && !(s.rows[k].replied && s.rows[k].abandoned))
      && (forall a, b | a in s.rows && b in s.rows && s.rows[a].run.Some? && s.rows[a].run == s.rows[b].run :: a == b)
      && (forall p, q | p in s.posts && q in s.posts && p.asked == q.asked :: p.answer == q.answer)
  {
    BeginningInv();
    InvAlways(Empty, steps);
    var s := Run(Empty, steps);
    forall k | k in s.rows
      ensures (s.rows[k].run.None? || s.rows[k].refusal.None?) && !(s.rows[k].replied && s.rows[k].abandoned)
    {
      assert RowOk(s, k, s.rows[k]);
    }
    forall p, q | p in s.posts && q in s.posts && p.asked == q.asked ensures p.answer == q.answer {
      assert PostOk(s, p) && PostOk(s, q);
    }
  }

  lemma DecidingIsForGood(s: State, step: Step)
    requires Inv(s) && Enabled(s, step)
    ensures forall a | a in s.decided :: a in Next(s, step).decided && Next(s, step).decided[a] == s.decided[a]
  {
    match step
    case Starting(handler, _) => if handler.key in s.rows { assert RowOk(s, handler.key, s.rows[handler.key]); }
    case Refusing(handler, _) => if handler.key in s.rows { assert RowOk(s, handler.key, s.rows[handler.key]); }
    case Converting(r) =>
      var key := s.replies[r].asked.key;
      if key in s.rows { assert RowOk(s, key, s.rows[key]); }
    case _ =>
  }

  /** What a claim was answered with is never taken back, so at most one run ever commits for it. */
  lemma {:induction false} AnswersAreFinal(s: State, steps: seq<Step>, asked: Asked)
    requires Inv(s) && AllEnabled(s, steps) && asked in s.decided
    ensures asked in Run(s, steps).decided && Run(s, steps).decided[asked] == s.decided[asked]
    decreases |steps|
  {
    if steps != [] {
      StepKeepsInv(s, steps[0]);
      DecidingIsForGood(s, steps[0]);
      AnswersAreFinal(Next(s, steps[0]), steps[1..], asked);
    }
  }

  /**
   * A row that a reply to its own claim closed had an answer. A row closed by
   * another claim's reply may not have one: see AStaleReplyCanCloseAClaim.
   */
  lemma ClosedMeansAnswered(steps: seq<Step>, key: Key)
    requires AllEnabled(Empty, steps) && key in Run(Empty, steps).rows
    requires !Run(Empty, steps).rows[key].Open()
    ensures var row := Run(Empty, steps).rows[key];
      row.Undecided() ==> row.closedBy.Some? && row.closedBy.value != row.generation
  {
    BeginningInv();
    InvAlways(Empty, steps);
    assert RowOk(Run(Empty, steps), key, Run(Empty, steps).rows[key]);
  }

  predicate Removes(step: Step) { step.Purging? || step.DeletingRun? }

  /** Every reply under way, and every closed row, is about the claim that is there. */
  predicate Kept(s: State) {
    && (forall r | r in s.replies ::
          s.replies[r].asked.key in s.rows && s.rows[s.replies[r].asked.key].generation == s.replies[r].asked.generation)
    && (forall k | k in s.rows && s.rows[k].closedBy.Some? :: s.rows[k].closedBy.value == s.rows[k].generation)
  }

  lemma StepKeepsKept(s: State, step: Step)
    requires Inv(s) && Kept(s) && Enabled(s, step) && !Removes(step)
    ensures Kept(Next(s, step))
  {
    if step.Marking? || step.Failing? || step.Taking? || step.Converting? {
      RepliesKept(s, step);
    } else {
      if step.StartingChild? { NewRunHasNoRow(s, step.run); }
      OthersKept(s, step);
    }
  }

  lemma OthersKept(s: State, step: Step)
    requires Kept(s) && Enabled(s, step) && !Removes(step) && (step.StartingChild? ==> FollowUp(step.run) !in s.rows)
    requires !step.Marking? && !step.Failing? && !step.Taking? && !step.Converting?
    ensures Kept(Next(s, step))
  {
    SameClaimsKept(s, Next(s, step));
  }

  lemma SameClaimsKept(s: State, next: State)
    requires Kept(s) && next.replies.Keys <= s.replies.Keys && forall r | r in next.replies :: next.replies[r] == s.replies[r]
    requires forall k | k in s.rows ::
      k in next.rows && next.rows[k].generation == s.rows[k].generation && next.rows[k].closedBy == s.rows[k].closedBy
    requires forall k | k in next.rows && k !in s.rows :: next.rows[k].closedBy.None?
    ensures Kept(next)
  {}

  lemma RepliesKept(s: State, step: Step)
    requires Kept(s) && Enabled(s, step) && (step.Marking? || step.Failing? || step.Taking? || step.Converting?)
    ensures Kept(Next(s, step))
  {}

  /** Until a row is removed, whatever is closed was answered. */
  lemma {:induction false} AnsweredUntilRemoved(s: State, steps: seq<Step>)
    requires Inv(s) && Kept(s) && AllEnabled(s, steps) && forall step | step in steps :: !Removes(step)
    ensures forall k | k in Run(s, steps).rows && !Run(s, steps).rows[k].Open() :: !Run(s, steps).rows[k].Undecided()
    decreases |steps|
  {
    if steps == [] {
      forall k | k in s.rows && !s.rows[k].Open() ensures !s.rows[k].Undecided() { assert RowOk(s, k, s.rows[k]); }
    } else {
      assert steps[0] in steps;
      StepKeepsInv(s, steps[0]);
      StepKeepsKept(s, steps[0]);
      AnsweredUntilRemoved(Next(s, steps[0]), steps[1..]);
    }
  }

  function TakenUpTwice(place: Place): seq<Step> {
    [Claiming(0, place), Refusing(Asked(Message(0), 0), LostClaim), Taking(0, Message(0)), Taking(1, Message(0))]
  }

  function PurgedBetween(place: Place): seq<Step> {
    [Failing(0, true), Purging({Message(0)}), Claiming(0, place), Marking(1)]
  }

  /**
   * Purging while a reply is under way frees the message to be claimed again,
   * and the reply then closes the new claim without an answer. In the source it
   * takes a reply that outlives its one-minute lease, or nobody else takes the
   * row up, and a claim older than refusals are kept; neither the lease nor the
   * age is modelled. Here the message
   * is claimed, refused, and taken up twice; one reply gives up, the row is
   * purged and claimed anew, and the other reply marks the new claim replied.
   */
  lemma AStaleReplyCanCloseAClaim(place: Place)
    ensures var steps := TakenUpTwice(place) + PurgedBetween(place);
      && AllEnabled(Empty, steps)
      && Message(0) in Run(Empty, steps).rows
      && var row := Run(Empty, steps).rows[Message(0)]; row.replied && row.Undecided()
  {
    var asked, rest := Asked(Message(0), 0), PurgedBetween(place);
    var steps := TakenUpTwice(place) + rest;
    var s1 := Next(Empty, steps[0]);
    var s2 := Next(s1, steps[1]);
    var s3 := Next(s2, steps[2]);
    var s4 := Next(s3, steps[3]);
    assert s4.replies == map[0 := Reply(asked, Some(Refused(LostClaim))), 1 := Reply(asked, Some(Refused(LostClaim)))];
    var final := StaleRest(s4, asked, place);
    assert steps[4..] == rest && steps[3..][1..] == rest && steps[2..][1..] == steps[3..] && steps[1..][1..] == steps[2..];
    Chained(s3, steps[3..], final);
    Chained(s2, steps[2..], final);
    Chained(s1, steps[1..], final);
    Chained(Empty, steps, final);
  }

  lemma StaleRest(s: State, asked: Asked, place: Place) returns (final: State)
    requires asked.key == Message(0) && asked.key in s.rows && s.rows[asked.key].Open() && s.rows[asked.key].run.None?
    requires 0 in s.replies && 1 in s.replies && s.replies[0].answer.Some? && s.replies[1].answer.Some?
    requires s.replies[0].asked == s.replies[1].asked == asked
    ensures AllEnabled(s, PurgedBetween(place)) && Run(s, PurgedBetween(place)) == final
    ensures Message(0) in final.rows && final.rows[Message(0)].replied && final.rows[Message(0)].Undecided()
  {
    var k, rest := Message(0), PurgedBetween(place);
    var s1 := Next(s, rest[0]);
    var s2 := Next(s1, rest[1]);
    assert k !in s2.rows && s2.replies[1] == s.replies[1];
    var s3 := Next(s2, rest[2]);
    final := Next(s3, rest[3]);
    Chained(s3, rest[3..], final);
    Chained(s2, rest[2..], final);
    Chained(s1, rest[1..], final);
    Chained(s, rest, final);
  }

  lemma Chained(s: State, steps: seq<Step>, final: State)
    requires steps != [] && Enabled(s, steps[0])
    requires AllEnabled(Next(s, steps[0]), steps[1..]) && Run(Next(s, steps[0]), steps[1..]) == final
    ensures AllEnabled(s, steps) && Run(s, steps) == final
  {}

  // ---- who is owed what --------------------------------------------------------------------

  /** Each run of the path was started by the one before it. */
  predicate Path(s: State, path: seq<RunId>) {
    && path != [] && (forall r | r in path :: r in s.runs)
    && forall i | 0 < i < |path| :: s.runs[path[i]].parent == Some(path[i - 1])
  }

  /** The run answers this message, in this place, on exactly one row. */
  predicate Owes(s: State, run: RunId, root: Option<MessageId>, place: Place) {
    && (exists k | k in s.rows :: s.rows[k].run == Some(run) && RootMessage(k, s.rows[k]) == root && s.rows[k].place == place)
    && (forall a, b | a in s.rows && b in s.rows && s.rows[a].run == s.rows[b].run == Some(run) :: a == b)
  }

  lemma {:induction false} PathOwes(s: State, path: seq<RunId>, root: Option<MessageId>, place: Place)
    requires Inv(s) && Path(s, path) && Owes(s, path[0], root, place)
    ensures Owes(s, path[|path| - 1], root, place)
    decreases |path|
  {
    if |path| > 1 {
      var init := path[..|path| - 1];
      PathOwes(s, init, root, place);
      var p, c := path[|path| - 2], path[|path| - 1];
      assert init[|init| - 1] == p && s.runs[c].parent == Some(p);
      assert ChildOwes(s, c, p);
      var k :| k in s.rows && s.rows[k].run == Some(p) && RootMessage(k, s.rows[k]) == root && s.rows[k].place == place;
      assert RowOk(s, FollowUp(c), s.rows[FollowUp(c)]);
    }
  }

  /** Every run in the tree below a chat-started run answers the root's message, in its thread, on one row of its own. */
  lemma DescendantsOwe(steps: seq<Step>, path: seq<RunId>, id: MessageId)
    requires AllEnabled(Empty, steps) && Path(Run(Empty, steps), path)
    requires Message(id) in Run(Empty, steps).rows && Run(Empty, steps).rows[Message(id)].run == Some(path[0])
    ensures Owes(Run(Empty, steps), path[|path| - 1], Some(id), Run(Empty, steps).rows[Message(id)].place)
  {
    BeginningInv();
    InvAlways(Empty, steps);
    assert RowOk(Run(Empty, steps), Message(id), Run(Empty, steps).rows[Message(id)]);
    PathOwes(Run(Empty, steps), path, Some(id), Run(Empty, steps).rows[Message(id)].place);
  }

  /** A run nobody on chat asked for, and everything below it, owes nobody a reply. */
  lemma {:induction false} OthersOweNothing(s: State, path: seq<RunId>)
    requires Inv(s) && Path(s, path) && !HasRow(s.rows, path[0])
    ensures !HasRow(s.rows, path[|path| - 1])
    decreases |path|
  {
    if |path| > 1 {
      var init := path[..|path| - 1];
      OthersOweNothing(s, init);
      assert init[|init| - 1] == path[|path| - 2];
      assert ChildOwesNothing(s, path[|path| - 1], path[|path| - 2]);
    }
  }
}
