// backend/store/chat.go: the statements on chat_triggers, as they run.
module ChatStore {
  import opened Numbers
  import opened Wrappers
  import opened Phases
  import opened Chat

  class Triggers {
    var rows: Rows
    var generations: nat

    constructor ()
      ensures rows == map[] && generations == 0
    {
      rows, generations := map[], 0;
    }

    /** Whether this caller is the one to act on the message. */
    method ClaimChatTrigger(id: MessageId, place: Place) returns (won: bool)
      modifies this
      ensures won == (Message(id) !in old(rows))
      ensures rows == Claim(old(rows), id, place, old(generations))
      ensures generations == old(generations) + if won then 1 else 0
      ensures Message(id) in rows && OthersAreKept(old(rows), rows, Message(id))
      ensures won ==> IsUnanswered(rows[Message(id)], place, None) && rows[Message(id)].Undecided()
      ensures !won ==> rows == old(rows)
    {
      if Message(id) in rows { return false; }
      rows := rows[Message(id) := Row(place, None, None, None, false, false, 0, generations, None)];
      generations := generations + 1;
      return true;
    }

    /** False is ErrChatTriggerSettled, and rolls the run's insert back. */
    method LinkChatTrigger(key: Key, run: RunId) returns (linked: bool)
      modifies this`rows
      ensures linked == Linkable(old(rows), key)
      ensures rows == if linked then Link(old(rows), key, run) else old(rows)
      ensures linked <==> key in old(rows) && old(rows)[key].run.None? && old(rows)[key].refusal.None?
                          && !old(rows)[key].replied && !old(rows)[key].abandoned
      ensures linked ==> rows == old(rows)[key := old(rows)[key].(run := Some(run))]
    {
      if key !in rows { return false; }
      var row := rows[key];
      if row.run.Some? || row.refusal.Some? || row.replied || row.abandoned { return false; }
      rows := rows[key := row.(run := Some(run))];
      return true;
    }

    /** The child's row copies where the parent's reply goes, and names the message the whole tree answers. */
    method LinkChatFollowUp(parent: RunId, child: RunId)
      requires OneRowARun(rows)
      modifies this
      ensures rows == Inherit(old(rows), parent, child, old(generations))
      ensures forall k | k in old(rows) && old(rows)[k].run == Some(parent) ::
        && FollowUp(child) in rows && rows[FollowUp(child)].run == Some(child) && rows[FollowUp(child)].refusal.None?
        && IsUnanswered(rows[FollowUp(child)], old(rows)[k].place,
                        if old(rows)[k].origin.Some? then old(rows)[k].origin else if k.Message? then Some(k.id) else None)
      ensures (forall k | k in old(rows) :: old(rows)[k].run != Some(parent)) ==> rows == old(rows)
      ensures OthersAreKept(old(rows), rows, FollowUp(child))
    {
      InheritedOfOne(rows, parent, child, generations);
      var owed := set k | k in rows && rows[k].run == Some(parent);
      if owed != {} {
        var k :| k in owed;
        var row := rows[k];
        var origin := row.origin;
        if origin.None? && k.Message? { origin := Some(k.id); }
        rows := rows[FollowUp(child) := Row(row.place, origin, Some(child), None, false, false, 0, generations, None)];
        generations := generations + 1;
      }
    }

    method RefuseChatTrigger(key: Key, refusal: Refusal) returns (recorded: bool)
      modifies this`rows
      ensures recorded == Refusable(old(rows), key) && rows == Refuse(old(rows), key, refusal)
      ensures recorded <==> key in old(rows) && old(rows)[key].run.None? && old(rows)[key].refusal.None?
      ensures rows == if recorded then old(rows)[key := old(rows)[key].(refusal := Some(refusal))] else old(rows)
    {
      if key !in rows || rows[key].run.Some? || rows[key].refusal.Some? { return false; }
      rows := rows[key := rows[key].(refusal := Some(refusal))];
      return true;
    }

    method MarkChatReplied(key: Key, generation: nat)
      modifies this`rows
      ensures rows == MarkReplied(old(rows), key, generation)
      ensures rows == if !AwaitsReply(old(rows), key) then old(rows)
        else old(rows)[key := old(rows)[key].(replied := true, attempts := old(rows)[key].attempts + 1, closedBy := Some(generation))]
    {
      if key !in rows || rows[key].replied || rows[key].abandoned { return; }
      var row := rows[key];
      row := row.(replied := true);
      row := row.(attempts := row.attempts + 1, closedBy := Some(generation));
      rows := rows[key := row];
    }

    method FailChatReply(key: Key, abandon: bool, generation: nat)
      modifies this`rows
      ensures rows == FailReply(old(rows), key, abandon, generation)
      ensures key in rows <==> key in old(rows)
      ensures OthersAreKept(old(rows), rows, key) && (!AwaitsReply(old(rows), key) ==> rows == old(rows))
      ensures AwaitsReply(old(rows), key) ==>
        && rows[key].attempts == old(rows)[key].attempts + 1 && !rows[key].replied && (rows[key].abandoned <==> abandon)
        && rows[key].run == old(rows)[key].run && rows[key].refusal == old(rows)[key].refusal
    {
      if key !in rows || rows[key].replied || rows[key].abandoned { return; }
      var row := rows[key];
      row := row.(attempts := row.attempts + 1);
      row := row.(abandoned := abandon, closedBy := if abandon then Some(generation) else None);
      rows := rows[key := row];
    }
  }

  /** A row that still owes its message a reply. */
  predicate AwaitsReply(rows: Rows, key: Key) { key in rows && !rows[key].replied && !rows[key].abandoned }

  predicate OthersAreKept(before: Rows, after: Rows, key: Key) {
    before.Keys <= after.Keys <= before.Keys + {key} && forall k | k in before && k != key :: after[k] == before[k]
  }

  /** Nothing was posted to this place yet, nor tried. */
  predicate IsUnanswered(row: Row, place: Place, origin: Option<MessageId>) {
    row.place == place && row.origin == origin && !row.replied && !row.abandoned && row.attempts == 0
  }

  lemma InheritedOfOne(rows: Rows, parent: RunId, child: RunId, generation: nat)
    requires OneRowARun(rows)
    ensures var after := Inherit(rows, parent, child, generation);
      && OthersAreKept(rows, after, FollowUp(child))
      && ((forall k | k in rows :: rows[k].run != Some(parent)) ==> after == rows)
      && forall k | k in rows && rows[k].run == Some(parent) ::
           && FollowUp(child) in after && after[FollowUp(child)].run == Some(child) && after[FollowUp(child)].refusal.None?
           && IsUnanswered(after[FollowUp(child)], rows[k].place,
                           if rows[k].origin.Some? then rows[k].origin else if k.Message? then Some(k.id) else None)
  {
    forall k | k in rows && rows[k].run == Some(parent) ensures RowsOf(rows, parent) == {k} {
      assert k in RowsOf(rows, parent);
    }
  }

  /** The wait after so many failed posts: ten seconds, doubled each time, ten minutes at most. */
  method ChatBackoff(attempts: nat) returns (d: nat)
    ensures d == Min(600, 10 * Pow(2, attempts))
  {
    d := 10;
    var i := 0;
    while i < attempts && d < 600
      invariant i <= attempts && d == 10 * Pow(2, i)
    {
      d := 2 * d;
      i := i + 1;
    }
    PowGrows(2, i, attempts);
    if d > 600 { d := 600; }
  }
}
