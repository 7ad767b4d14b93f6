/** Reconciling the registry with a daemon's state reports. Rows are keyed by agent id. */
module StateReports {
  import opened Wrappers
  import opened Fleet

  type Rows = map<nat, AgentRow>

  datatype Entry = Entry(agentId: nat, name: string, state: AgentState,
                         idleSecs: Option<nat>, busy: Option<bool>, sessionFile: Option<string>)

  datatype Report = Report(full: bool, entries: seq<Entry>)

  /** Primary key and the unique index on names. */
  predicate Keyed(rows: Rows) {
    && (forall id :: id in rows ==> rows[id].id == id)
    && (forall i, j :: i in rows && j in rows && rows[i].name == rows[j].name ==> i == j)
  }

  function ByName(rows: Rows, name: string): Option<AgentRow>
    requires Keyed(rows)
  {
    if exists id :: id in rows && rows[id].name == name then
      var id :| id in rows && rows[id].name == name;
      Some(rows[id])
    else None
  }

  // ---- One report ----

  predicate IsMissing(a: AgentRow, daemon: string, reported: set<nat>) {
    a.daemon == daemon && a.id !in reported && a.state != Decommissioned && a.state != Failed
  }

  /** A full snapshot fails the owned agents it does not mention. */
  function MarkMissing(rows: Rows, daemon: string, reported: set<nat>): Rows {
    map id | id in rows :: if IsMissing(rows[id], daemon, reported) then rows[id].(state := Failed) else rows[id]
  }

  function WithActivity(a: AgentRow, e: Entry, now: int): AgentRow {
    if e.idleSecs.Some? || e.busy.Some? then a.(idleSecs := e.idleSecs, busy := e.busy, reportedAt := Some(now)) else a
  }

  /** A changed, non-empty session file becomes the row's current one. */
  function WithSession(a: AgentRow, e: Entry): AgentRow {
    if e.sessionFile.Some? && e.sessionFile.value != "" && a.sessionFile != e.sessionFile
    then a.(sessionFile := e.sessionFile) else a
  }

  function ApplyEntry(rows: Rows, daemon: string, e: Entry, now: int): Rows
    requires Keyed(rows)
  {
    match ByName(rows, e.name)
    case None => rows
    case Some(a) =>
      if a.daemon != daemon || a.id != e.agentId then rows
      else if e.state == Decommissioned then rows - {a.id}
      else rows[a.id := WithSession(WithActivity(a, e, now), e).(state := e.state)]
  }

  function ApplyEntries(rows: Rows, daemon: string, entries: seq<Entry>, now: int): (r: Rows)
    requires Keyed(rows)
    ensures Keyed(r)
  {
    if entries == [] then rows
    else ApplyEntry(ApplyEntries(rows, daemon, entries[..|entries| - 1], now), daemon, entries[|entries| - 1], now)
  }

  function ReportedIds(entries: seq<Entry>): set<nat> { set e | e in entries :: e.agentId }

  function ApplyReport(rows: Rows, daemon: string, report: Report, now: int): (r: Rows)
    requires Keyed(rows)
    ensures Keyed(r)
  {
    var marked := if report.full then MarkMissing(rows, daemon, ReportedIds(report.entries)) else rows;
    ApplyEntries(marked, daemon, report.entries, now)
  }

  class Registry {
    var rows: Rows

    /** Fail every owned live row the snapshot does not mention. */
    method FailMissing(daemon: string, reported: set<nat>)
      modifies this
      ensures rows == MarkMissing(old(rows), daemon, reported)
    {
      var listed := rows;
      var todo := listed.Keys;
      while todo != {}
        invariant todo <= listed.Keys && rows.Keys == listed.Keys
        invariant forall id :: id in todo ==> rows[id] == listed[id]
        invariant forall id :: id in listed.Keys - todo ==> rows[id] == MarkMissing(listed, daemon, reported)[id]
        decreases todo
      {
        var id :| id in todo;
        todo := todo - {id};
        if IsMissing(listed[id], daemon, reported) {
          rows := rows[id := rows[id].(state := Failed)];
        }
      }
    }

    method SetActivity(id: nat, e: Entry, now: int)
      requires id in rows
      modifies this
      ensures rows == old(rows)[id := WithActivity(old(rows)[id], e, now)]
    {
      if e.idleSecs.Some? || e.busy.Some? {
        rows := rows[id := rows[id].(idleSecs := e.idleSecs, busy := e.busy, reportedAt := Some(now))];
      }
    }

    method SetSession(id: nat, e: Entry)
      requires id in rows
      modifies this
      ensures rows == old(rows)[id := WithSession(old(rows)[id], e)]
    {
      if e.sessionFile.Some? && e.sessionFile.value != "" && rows[id].sessionFile != e.sessionFile {
        rows := rows[id := rows[id].(sessionFile := e.sessionFile)];
      }
    }

    method SetState(id: nat, state: AgentState)
      requires id in rows
      modifies this
      ensures rows == if state == Decommissioned then old(rows) - {id}
                      else old(rows)[id := old(rows)[id].(state := state)]
    {
      if state == Decommissioned {
        rows := rows - {id};
      } else if rows[id].state != state {
        rows := rows[id := rows[id].(state := state)];
      }
    }

    /** Apply one entry: activity, session file, then state. */
    method HandleEntry(daemon: string, e: Entry, now: int)
      requires Keyed(rows)
      modifies this
      ensures rows == ApplyEntry(old(rows), daemon, e, now)
    {
      var found := ByName(rows, e.name);
      if found.None? { return; }
      var a := found.value;
      if a.daemon != daemon || a.id != e.agentId { return; }
      SetActivity(a.id, e, now);
      SetSession(a.id, e);
      SetState(a.id, e.state);
    }

    /** Apply one report of `daemon`; entries for rows it does not own are ignored. */
    method HandleReport(daemon: string, report: Report, now: int)
      requires Keyed(rows)
      modifies this
      ensures rows == ApplyReport(old(rows), daemon, report, now)
    {
      if report.full { FailMissing(daemon, ReportedIds(report.entries)); }
      ghost var marked := rows;
      for i := 0 to |report.entries|
        invariant rows == ApplyEntries(marked, daemon, report.entries[..i], now)
      {
        assert report.entries[..i + 1][..i] == report.entries[..i];
        HandleEntry(daemon, report.entries[i], now);
      }
      assert report.entries[..|report.entries|] == report.entries;
    }
  }

  // ---- What a report does to one row ----

  /** The entry speaks about this row: same id under the same name. */
  predicate Matches(e: Entry, a: AgentRow) { e.agentId == a.id && e.name == a.name }

  predicate Mentioned(entries: seq<Entry>, a: AgentRow) {
    exists i :: 0 <= i < |entries| && Matches(entries[i], a)
  }

  predicate ReportedGone(entries: seq<Entry>, a: AgentRow) {
    exists i :: 0 <= i < |entries| && Matches(entries[i], a) && entries[i].state == Decommissioned
  }

  /** `s` is the state of the last entry about this row. */
  predicate LastReported(entries: seq<Entry>, a: AgentRow, s: AgentState) {
    exists i :: 0 <= i < |entries| && Matches(entries[i], a) && entries[i].state == s
                && forall j :: i < j < |entries| ==> !Matches(entries[j], a)
  }

  predicate SameOwner(a: AgentRow, b: AgentRow) { a.id == b.id && a.name == b.name && a.daemon == b.daemon }

  lemma ByNameFinds(rows: Rows, id: nat, name: string)
    requires Keyed(rows) && id in rows && rows[id].name == name
    ensures ByName(rows, name) == Some(rows[id])
  {
  }

  /** One entry changes only the row it matches, and only if that row is the daemon's. */
  lemma EntryOnRow(rows: Rows, daemon: string, e: Entry, now: int, id: nat)
    requires Keyed(rows)
    ensures var after := ApplyEntry(rows, daemon, e, now);
            && (id in after ==> id in rows && SameOwner(after[id], rows[id]))
            && (id in rows && !(Matches(e, rows[id]) && rows[id].daemon == daemon) ==>
                  id in after && after[id] == rows[id])
            && (id in rows && Matches(e, rows[id]) && rows[id].daemon == daemon ==>
                  if e.state == Decommissioned then id !in after else id in after && after[id].state == e.state)
  {
    if id in rows && Matches(e, rows[id]) { ByNameFinds(rows, id, e.name); }
  }

  /** What a list of entries leaves of a row, given what it was. */
  predicate EntriesOutcome(entries: seq<Entry>, daemon: string, before: AgentRow, after: Option<AgentRow>) {
    if before.daemon != daemon || !Mentioned(entries, before) then after == Some(before)
    else if ReportedGone(entries, before) then after == None
    else after.Some? && SameOwner(after.value, before) && LastReported(entries, before, after.value.state)
  }

  function Row(rows: Rows, id: nat): Option<AgentRow> { if id in rows then Some(rows[id]) else None }

  lemma {:induction false} EntriesOnRow(rows: Rows, daemon: string, entries: seq<Entry>, now: int, id: nat)
    requires Keyed(rows)
    ensures var after := ApplyEntries(rows, daemon, entries, now);
            && (id in after ==> id in rows)
            && (id in rows ==> EntriesOutcome(entries, daemon, rows[id], Row(after, id)))
  {
    if entries != [] {
      var init, e := entries[..|entries| - 1], entries[|entries| - 1];
      EntriesOnRow(rows, daemon, init, now, id);
      EntryOnRow(ApplyEntries(rows, daemon, init, now), daemon, e, now, id);
      assert entries == init + [e];
      if id in rows {
        OutcomeStep(init, e, daemon, rows[id], Row(ApplyEntries(rows, daemon, init, now), id),
                    Row(ApplyEntries(rows, daemon, entries, now), id));
      }
    }
  }

  lemma OutcomeStep(init: seq<Entry>, e: Entry, daemon: string, before: AgentRow,
                    mid: Option<AgentRow>, after: Option<AgentRow>)
    requires EntriesOutcome(init, daemon, before, mid)
    requires mid.None? ==> after.None?
    requires mid.Some? && !(Matches(e, before) && before.daemon == daemon) ==> after == mid
    requires mid.Some? && Matches(e, before) && before.daemon == daemon ==>
               if e.state == Decommissioned then after.None?
               else after.Some? && SameOwner(after.value, before) && after.value.state == e.state
    ensures EntriesOutcome(init + [e], daemon, before, after)
  {
    OneMoreEntry(init, e, before);
  }

  lemma OneMoreEntry(init: seq<Entry>, e: Entry, a: AgentRow)
    ensures Mentioned(init + [e], a) <==> Mentioned(init, a) || Matches(e, a)
    ensures ReportedGone(init + [e], a) <==> ReportedGone(init, a) || (Matches(e, a) && e.state == Decommissioned)
    ensures Matches(e, a) ==> LastReported(init + [e], a, e.state)
    ensures forall s :: !Matches(e, a) && LastReported(init, a, s) ==> LastReported(init + [e], a, s)
  {
    var all := init + [e];
    assert all[|init|] == e;
    assert forall i :: 0 <= i < |init| ==> all[i] == init[i];
    forall s | !Matches(e, a) && LastReported(init, a, s) ensures LastReported(all, a, s) {
      var i :| 0 <= i < |init| && Matches(init[i], a) && init[i].state == s
               && forall j :: i < j < |init| ==> !Matches(init[j], a);
      assert Matches(all[i], a);
    }
  }

  // ---- Isolation, convergence, idempotence ----

  /** Rows owned by other daemons are untouched, no row appears, and no row changes owner. */
  lemma ReportsAreIsolated(rows: Rows, daemon: string, report: Report, now: int, id: nat)
    requires Keyed(rows)
    ensures var after := ApplyReport(rows, daemon, report, now);
            && (id in after ==> id in rows && SameOwner(after[id], rows[id]))
            && (id in rows && rows[id].daemon != daemon ==> id in after && after[id] == rows[id])
  {
    var marked := if report.full then MarkMissing(rows, daemon, ReportedIds(report.entries)) else rows;
    EntriesOnRow(marked, daemon, report.entries, now, id);
  }

  predicate NamesId(entries: seq<Entry>, id: nat) { exists i :: 0 <= i < |entries| && entries[i].agentId == id }

  /** What a report leaves of an owned row: gone if reported decommissioned, else the last state
      reported under its id and name, else (full report, id not mentioned at all) Failed unless it
      was Failed or Decommissioned already, else unchanged. */
  predicate Converged(report: Report, before: AgentRow, after: Option<AgentRow>) {
    if ReportedGone(report.entries, before) then after == None
    else
      && after.Some?
      && (if Mentioned(report.entries, before) then LastReported(report.entries, before, after.value.state)
          else if report.full && !NamesId(report.entries, before.id) && before.state != Decommissioned
          then after.value.state == Failed
          else after.value.state == before.state)
  }

  lemma ReportsConverge(rows: Rows, daemon: string, report: Report, now: int, id: nat)
    requires Keyed(rows) && id in rows && rows[id].daemon == daemon
    ensures Converged(report, rows[id], Row(ApplyReport(rows, daemon, report, now), id))
  {
    var marked := if report.full then MarkMissing(rows, daemon, ReportedIds(report.entries)) else rows;
    EntriesOnRow(marked, daemon, report.entries, now, id);
    SameMentions(report.entries, rows[id], marked[id]);
  }

  /** Mentions depend on id and name only. */
  lemma SameMentions(entries: seq<Entry>, a: AgentRow, b: AgentRow)
    requires a.id == b.id && a.name == b.name
    ensures Mentioned(entries, a) == Mentioned(entries, b)
    ensures ReportedGone(entries, a) == ReportedGone(entries, b)
    ensures forall s :: LastReported(entries, a, s) == LastReported(entries, b, s)
  {
    assert forall e :: Matches(e, a) == Matches(e, b);
  }

  lemma LastIsUnique(entries: seq<Entry>, a: AgentRow, s: AgentState, t: AgentState)
    requires LastReported(entries, a, s) && LastReported(entries, a, t)
    ensures s == t
  {
  }

  /** Applying the same report again, at any later time, changes no owner and no state. */
  lemma ReportsAreIdempotent(rows: Rows, daemon: string, report: Report, now: int, later: int, id: nat)
    requires Keyed(rows)
    ensures var once := ApplyReport(rows, daemon, report, now);
            var twice := ApplyReport(once, daemon, report, later);
            && (id in once <==> id in twice)
            && (id in once ==> SameOwner(once[id], twice[id]) && once[id].state == twice[id].state)
  {
    var once := ApplyReport(rows, daemon, report, now);
    ReportsAreIsolated(rows, daemon, report, now, id);
    ReportsAreIsolated(once, daemon, report, later, id);
    if id in once && rows[id].daemon == daemon {
      ReportsConverge(rows, daemon, report, now, id);
      ReportsConverge(once, daemon, report, later, id);
      SameMentions(report.entries, rows[id], once[id]);
      var twice := ApplyReport(once, daemon, report, later);
      if Mentioned(report.entries, rows[id]) {
        LastIsUnique(report.entries, rows[id], once[id].state, twice[id].state);
      }
    }
  }

  /** The plain promise about an owned row: it has its last reported state, or, if the report
      says nothing about it, it is Failed or Decommissioned. */
  predicate Promise(report: Report, before: AgentRow, after: AgentRow) {
    if Mentioned(report.entries, before) then LastReported(report.entries, before, after.state)
    else after.state == Failed || after.state == Decommissioned
  }

  /** A full report keeps the plain promise for a surviving row unless the row's id is reported
      under a different name only, in which case a live row keeps its stale state. */
  lemma PromiseExactlyWhen(rows: Rows, daemon: string, entries: seq<Entry>, now: int, id: nat)
    requires Keyed(rows) && id in rows && rows[id].daemon == daemon
    requires id in ApplyReport(rows, daemon, Report(true, entries), now)
    ensures Promise(Report(true, entries), rows[id], ApplyReport(rows, daemon, Report(true, entries), now)[id])
            <==> Mentioned(entries, rows[id]) || !NamesId(entries, id)
                 || rows[id].state == Failed || rows[id].state == Decommissioned
  {
    ReportsConverge(rows, daemon, Report(true, entries), now, id);
  }

  /** The promise does fail: a live row whose id a full report gives under another name keeps
      whatever state it had, whatever state is reported. */
  lemma RenamedIdKeepsState(row: AgentRow, other: string, state: AgentState, now: int)
    requires row.state != Failed && row.state != Decommissioned && row.name != other
    ensures var rows := map[row.id := row];
            var report := Report(true, [Entry(row.id, other, state, None, None, None)]);
            && Keyed(rows) && row.id in ApplyReport(rows, row.daemon, report, now)
            && ApplyReport(rows, row.daemon, report, now)[row.id].state == row.state
            && !Promise(report, row, ApplyReport(rows, row.daemon, report, now)[row.id])
  {
    var e := Entry(row.id, other, state, None, None, None);
    assert e in [e] && e.agentId in ReportedIds([e]);
    ReportsConverge(map[row.id := row], row.daemon, Report(true, [e]), now, row.id);
  }

  // ---- The facts preemption reads ----

  predicate TellsActivity(e: Entry, a: AgentRow) { Matches(e, a) && (e.idleSecs.Some? || e.busy.Some?) }

  predicate TellsSession(e: Entry, a: AgentRow) {
    Matches(e, a) && e.sessionFile.Some? && |e.sessionFile.value| > 0
  }

  predicate ActivityOf(e: Entry, now: int, after: AgentRow) {
    after.idleSecs == e.idleSecs && after.busy == e.busy && after.reportedAt == Some(now)
  }

  predicate SameActivity(before: AgentRow, after: AgentRow) {
    after.idleSecs == before.idleSecs && after.busy == before.busy && after.reportedAt == before.reportedAt
  }

  /** The row's activity is that of the last entry that tells any, idle time and busy flag together
      and dated now, or the old one if none does. */
  predicate LastActivity(entries: seq<Entry>, now: int, before: AgentRow, after: AgentRow) {
    || (SameActivity(before, after) && forall i :: 0 <= i < |entries| ==> !TellsActivity(entries[i], before))
    || exists i :: 0 <= i < |entries| && TellsActivity(entries[i], before) && ActivityOf(entries[i], now, after)
                   && forall j :: i < j < |entries| ==> !TellsActivity(entries[j], before)
  }

  /** The row's session file is the last non-empty one told, or the old one if none is. */
  predicate LastSession(entries: seq<Entry>, before: AgentRow, after: AgentRow) {
    || (after.sessionFile == before.sessionFile
        && forall i :: 0 <= i < |entries| ==> !TellsSession(entries[i], before))
    || exists i :: 0 <= i < |entries| && TellsSession(entries[i], before) && after.sessionFile == entries[i].sessionFile
                   && forall j :: i < j < |entries| ==> !TellsSession(entries[j], before)
  }

  /** Apart from its state and these facts the row is what it was. */
  predicate SameOtherwise(before: AgentRow, after: AgentRow) {
    after == before.(state := after.state, idleSecs := after.idleSecs, busy := after.busy,
                     reportedAt := after.reportedAt, sessionFile := after.sessionFile)
  }

  predicate FactsFrom(entries: seq<Entry>, now: int, before: AgentRow, after: AgentRow) {
    LastActivity(entries, now, before, after) && LastSession(entries, before, after) && SameOtherwise(before, after)
  }

  /** What one entry makes of the facts of a row of the daemon. */
  predicate FactsStep(e: Entry, now: int, before: AgentRow, mid: AgentRow, after: AgentRow) {
    && (if TellsActivity(e, before) then ActivityOf(e, now, after) else SameActivity(mid, after))
    && (if TellsSession(e, before) then after.sessionFile == e.sessionFile else after.sessionFile == mid.sessionFile)
    && SameOtherwise(mid, after)
  }

  lemma EntryOnFacts(rows: Rows, daemon: string, e: Entry, now: int, id: nat, before: AgentRow)
    requires Keyed(rows) && id in rows && rows[id].daemon == daemon
    requires before.id == id && before.name == rows[id].name
    requires id in ApplyEntry(rows, daemon, e, now)
    ensures FactsStep(e, now, before, rows[id], ApplyEntry(rows, daemon, e, now)[id])
  {
    if Matches(e, rows[id]) { ByNameFinds(rows, id, e.name); } else { EntryOnRow(rows, daemon, e, now, id); }
  }

  lemma ActivityGrows(init: seq<Entry>, e: Entry, now: int, before: AgentRow, mid: AgentRow, after: AgentRow)
    requires LastActivity(init, now, before, mid) && FactsStep(e, now, before, mid, after)
    ensures LastActivity(init + [e], now, before, after)
  {
    var all := init + [e];
    assert all[|init|] == e;
    assert forall i :: 0 <= i < |init| ==> all[i] == init[i];
    if !TellsActivity(e, before) && !SameActivity(before, mid) {
      var i :| 0 <= i < |init| && TellsActivity(init[i], before) && ActivityOf(init[i], now, mid)
               && forall j :: i < j < |init| ==> !TellsActivity(init[j], before);
      assert TellsActivity(all[i], before) && ActivityOf(all[i], now, after);
    }
  }

  lemma SessionGrows(init: seq<Entry>, e: Entry, now: int, before: AgentRow, mid: AgentRow, after: AgentRow)
    requires LastSession(init, before, mid) && FactsStep(e, now, before, mid, after)
    ensures LastSession(init + [e], before, after)
  {
    var all := init + [e];
    assert all[|init|] == e;
    assert forall i :: 0 <= i < |init| ==> all[i] == init[i];
    if !TellsSession(e, before) && mid.sessionFile != before.sessionFile {
      var i :| 0 <= i < |init| && TellsSession(init[i], before) && mid.sessionFile == init[i].sessionFile
               && forall j :: i < j < |init| ==> !TellsSession(init[j], before);
      assert TellsSession(all[i], before) && after.sessionFile == all[i].sessionFile;
    }
  }

  lemma {:induction false} EntriesOnFacts(rows: Rows, daemon: string, entries: seq<Entry>, now: int, id: nat)
    requires Keyed(rows) && id in rows && rows[id].daemon == daemon
    requires id in ApplyEntries(rows, daemon, entries, now)
    ensures FactsFrom(entries, now, rows[id], ApplyEntries(rows, daemon, entries, now)[id])
  {
    if entries != [] {
      var init, e := entries[..|entries| - 1], entries[|entries| - 1];
      var mid := ApplyEntries(rows, daemon, init, now);
      EntriesOnRow(rows, daemon, init, now, id);
      EntryOnRow(mid, daemon, e, now, id);
      EntriesOnFacts(rows, daemon, init, now, id);
      EntryOnFacts(mid, daemon, e, now, id, rows[id]);
      var after := ApplyEntry(mid, daemon, e, now)[id];
      ActivityGrows(init, e, now, rows[id], mid[id], after);
      SessionGrows(init, e, now, rows[id], mid[id], after);
      assert init + [e] == entries;
    }
  }

  lemma SameTold(entries: seq<Entry>, now: int, before: AgentRow, marked: AgentRow, after: AgentRow)
    requires marked == before.(state := marked.state) && FactsFrom(entries, now, marked, after)
    ensures FactsFrom(entries, now, before, after)
  {
    assert forall e :: Matches(e, before) == Matches(e, marked);
  }

  /** Reports carry the facts preemption reads: of every surviving row of the daemon, idle time, busy
      flag and session file are the last told ones, the activity dated with this report; a report
      that tells none leaves them as they were, and nothing else but the state changes. */
  lemma ReportsCarryFacts(rows: Rows, daemon: string, report: Report, now: int, id: nat)
    requires Keyed(rows) && id in rows && rows[id].daemon == daemon && id in ApplyReport(rows, daemon, report, now)
    ensures FactsFrom(report.entries, now, rows[id], ApplyReport(rows, daemon, report, now)[id])
  {
    var marked := if report.full then MarkMissing(rows, daemon, ReportedIds(report.entries)) else rows;
    EntriesOnFacts(marked, daemon, report.entries, now, id);
    SameTold(report.entries, now, rows[id], marked[id], ApplyReport(rows, daemon, report, now)[id]);
  }
}
