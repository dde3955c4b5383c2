/**
 The daemon's local queue as a table and what each operation does to it
 (worker/local_queue.go). Ids are texts "local-N"; positions of new and retried
 rows are one past the largest position of any row.
 */
module LocalModel {
  import opened Wrappers
  import opened QueueOrder
  import Decimal

  type Time = int

  datatype Status = Queued | Running | Succeeded | Failed

  datatype Row = Row(
    status: Status,
    command: seq<string>,
    createdAt: Time,
    startedAt: Option<Time>,
    finishedAt: Option<Time>,
    workerId: string,
    hostname: string,
    outputPath: string,
    exitCode: Option<int>,
    error: string,
    cancelRequested: bool,
    position: int)

  /** rows is keyed by sequence; last is the AUTOINCREMENT counter, which never goes back. */
  datatype Table = Table(rows: map<int, Row>, last: int)

  datatype Error =
    | InvalidId
    | NoSuchRow
    | NotRunning
    | OnlyQueuedReordered
    | NotFoundOrRunning
    | OnlyFailedRetried
    | EmptyCommand
    | NulInCommand
    | CommandTooLarge
    | BadTargetCount
    | BadTarget
    | UnknownAction

  const RESTARTED := "Worker restarted; previous outcome unknown"

  // ---------- Job ids ----------

  const MAX_INT64 := 0x7fff_ffff_ffff_ffff
  const MIN_INT64 := -0x8000_0000_0000_0000
  const PREFIX := "local-"

  /** Go's strconv.ParseInt(s, 10, 64): an optional sign and digits, within range. */
  function ParseInt(s: string): Option<int> {
    var digits := if s != "" && (s[0] == '+' || s[0] == '-') then s[1..] else s;
    if digits == "" || !Decimal.AllDigits(digits) then None
    else
      var v: int := Decimal.Value(digits);
      var n := if s[0] == '-' then -v else v;
      if MIN_INT64 <= n <= MAX_INT64 then Some(n) else None
  }

  function LocalId(n: int): string {
    PREFIX + Decimal.Print(n)
  }

  function LocalSequence(id: string): Option<int> {
    if !(PREFIX <= id) then None
    else
      match ParseInt(id[|PREFIX|..])
      case None => None
      case Some(n) => if n < 1 || id != LocalId(n) then None else Some(n)
  }

  /** Exactly the printed forms of the numbers from 1 to the largest int64 are ids. */
  lemma LocalSequenceInvertsId(id: string, n: int)
    ensures LocalSequence(id) == Some(n) <==> 1 <= n <= MAX_INT64 && id == LocalId(n)
  {
    if 1 <= n <= MAX_INT64 && id == LocalId(n) {
      Decimal.DigitsValue(n);
      var text := id[|PREFIX|..];
      assert text == Decimal.Digits(n);
      assert Decimal.IsDigit(text[0]);
      assert ParseInt(text) == Some(n);
    }
  }

  /** Different ids name different rows. */
  lemma LocalSequenceInjective(a: string, b: string)
    requires LocalSequence(a).Some? && LocalSequence(a) == LocalSequence(b)
    ensures a == b
  {
  }

  // ---------- Views ----------

  function Pending(rows: map<int, Row>): Positions {
    map n | n in rows && rows[n].status == Queued :: rows[n].position
  }

  function FailedPositions(rows: map<int, Row>): Positions {
    map n | n in rows && rows[n].status == Failed :: rows[n].position
  }

  function AllPositions(rows: map<int, Row>): set<int> {
    set n | n in rows :: rows[n].position
  }

  function Queue(t: Table): seq<int> {
    Order(Pending(t.rows))
  }

  predicate IsQueued(t: Table, n: int) {
    n in t.rows && t.rows[n].status == Queued
  }

  // ---------- Operations ----------

  /** The characters Go's strings.TrimSpace removes. */
  predicate IsSpace(c: char) {
    c == ' ' || '\t' <= c <= '\r' || c == '\U{85}' || c == '\U{A0}' || c == '\U{1680}' ||
    '\U{2000}' <= c <= '\U{200A}' || c == '\U{2028}' || c == '\U{2029}' || c == '\U{202F}' || c == '\U{205F}' ||
    c == '\U{3000}'
  }

  predicate Blank(s: string) {
    forall i :: 0 <= i < |s| ==> IsSpace(s[i])
  }

  /** Bytes of the UTF-8 form. */
  function Utf8Length(s: string): nat {
    if s == "" then 0
    else
      var c := s[0] as int;
      (if c < 0x80 then 1 else if c < 0x800 then 2 else if c < 0x10000 then 3 else 4) + Utf8Length(s[1..])
  }

  function TotalLength(command: seq<string>): nat {
    if command == [] then 0 else Utf8Length(command[0]) + TotalLength(command[1..])
  }

  function CommandError(command: seq<string>): Option<Error> {
    if command == [] || Blank(command[0]) then Some(EmptyCommand)
    else if exists i :: 0 <= i < |command| && '\0' in command[i] then Some(NulInCommand)
    else if TotalLength(command) > 256 * 1024 || |command| > 4096 then Some(CommandTooLarge)
    else None
  }

  function NewRow(command: seq<string>, now: Time, position: int): Row {
    Row(Queued, command, now, None, None, "", "", "", None, "", false, position)
  }

  function NextPosition(rows: map<int, Row>): int {
    MaxOrZero(AllPositions(rows)) + 1
  }

  function Submit(t: Table, now: Time, command: seq<string>): (Table, Result<int, Error>) {
    if CommandError(command).Some? then (t, Err(CommandError(command).value))
    else
      var n := t.last + 1;
      (Table(t.rows[n := NewRow(command, now, NextPosition(t.rows))], n), Ok(n))
  }

  function Started(row: Row, now: Time, worker: string, host: string): Row {
    row.(status := Running, startedAt := Some(now), workerId := worker, hostname := host)
  }

  function Claim(t: Table, now: Time, worker: string, host: string): (Table, Option<int>) {
    if Pending(t.rows) == map[] then (t, None)
    else
      var n := First(Pending(t.rows));
      FirstIsFirst(Pending(t.rows));
      (t.(rows := t.rows[n := Started(t.rows[n], now, worker, host)]), Some(n))
  }

  /** The row a running job's id names. */
  function RunningRow(t: Table, id: string): Result<int, Error> {
    match LocalSequence(id)
    case None => Err(InvalidId)
    case Some(n) => if n in t.rows && t.rows[n].status == Running then Ok(n) else Err(NotRunning)
  }

  function Ended(row: Row, now: Time, exitCode: Option<int>, error: string): Row {
    row.(status := if exitCode == Some(0) && error == "" then Succeeded else Failed,
         finishedAt := Some(now), exitCode := exitCode, error := error)
  }

  lemma RunningRowFound(t: Table, id: string)
    ensures RunningRow(t, id).Ok? ==> RunningRow(t, id).value in t.rows
  {
  }

  function Finish(t: Table, now: Time, id: string, exitCode: Option<int>, error: string): (Table, Result<(), Error>) {
    match RunningRow(t, id)
    case Err(e) => (t, Err(e))
    case Ok(n) => RunningRowFound(t, id); (t.(rows := t.rows[n := Ended(t.rows[n], now, exitCode, error)]), Ok(()))
  }

  function Output(t: Table, id: string, path: string): (Table, Result<(), Error>) {
    match RunningRow(t, id)
    case Err(e) => (t, Err(e))
    case Ok(n) => RunningRowFound(t, id); (t.(rows := t.rows[n := t.rows[n].(outputPath := path)]), Ok(()))
  }

  function RequestCancel(t: Table, id: string): (Table, Result<(), Error>) {
    match RunningRow(t, id)
    case Err(e) => (t, Err(e))
    case Ok(n) => RunningRowFound(t, id); (t.(rows := t.rows[n := t.rows[n].(cancelRequested := true)]), Ok(()))
  }

  function Abandoned(row: Row, now: Time): Row {
    row.(status := Failed, finishedAt := Some(now), error := RESTARTED)
  }

  function RecoveredRows(rows: map<int, Row>, now: Time): map<int, Row> {
    map n | n in rows :: if rows[n].status == Running then Abandoned(rows[n], now) else rows[n]
  }

  function Recover(t: Table, now: Time): Table {
    t.(rows := RecoveredRows(t.rows, now))
  }

  /** The row of a queued job. */
  function QueuedRow(t: Table, id: string): Result<int, Error> {
    match LocalSequence(id)
    case None => Err(InvalidId)
    case Some(n) =>
      if n !in t.rows then Err(NoSuchRow)
      else if t.rows[n].status != Queued then Err(OnlyQueuedReordered)
      else Ok(n)
  }

  function MoveTo(rows: map<int, Row>, n: int, position: int): map<int, Row>
    requires n in rows
  {
    rows[n := rows[n].(position := position)]
  }

  /** An empty other asks for the front of the queue. */
  function Reorder(t: Table, id: string, other: string): (Table, Result<(), Error>) {
    match QueuedRow(t, id)
    case Err(e) => (t, Err(e))
    case Ok(first) =>
      if other == "" then
        assert first in Pending(t.rows) && Pending(t.rows)[first] in Pending(t.rows).Values;
        (t.(rows := MoveTo(t.rows, first, Min(Pending(t.rows).Values) - 1)), Ok(()))
      else
        match QueuedRow(t, other)
        case Err(e) => (t, Err(e))
        case Ok(second) =>
          var a, b := t.rows[first].position, t.rows[second].position;
          (t.(rows := MoveTo(MoveTo(t.rows, second, a), first, b)), Ok(()))
  }

  function Remove(t: Table, id: string): (Table, Result<(), Error>) {
    match LocalSequence(id)
    case None => (t, Err(InvalidId))
    case Some(n) =>
      if n in t.rows && t.rows[n].status != Running then (t.(rows := t.rows - {n}), Ok(()))
      else (t, Err(NotFoundOrRunning))
  }

  function RunningRows(rows: map<int, Row>): map<int, Row> {
    map n | n in rows && rows[n].status == Running :: rows[n]
  }

  function RemoveAll(t: Table): (Table, nat, nat) {
    var left := RunningRows(t.rows);
    (t.(rows := left), |t.rows.Keys - left.Keys|, |left.Keys|)
  }

  function Requeued(row: Row, position: int): Row {
    row.(status := Queued, startedAt := None, finishedAt := None, workerId := "", hostname := "",
         outputPath := "", exitCode := None, error := "", cancelRequested := false, position := position)
  }

  function RequeueAll(rows: map<int, Row>, ns: seq<int>): map<int, Row>
    requires forall i :: 0 <= i < |ns| ==> ns[i] in rows
    decreases |ns|
  {
    if ns == [] then rows
    else RequeueAll(rows[ns[0] := Requeued(rows[ns[0]], NextPosition(rows))], ns[1..])
  }

  /** An empty id retries every failed job, in (position, sequence) order. */
  function RetryTargets(t: Table, id: string): Result<seq<int>, Error> {
    if id == "" then Ok(Order(FailedPositions(t.rows)))
    else
      match LocalSequence(id)
      case None => Err(InvalidId)
      case Some(n) =>
        if n !in t.rows then Err(NoSuchRow)
        else if t.rows[n].status != Failed then Err(OnlyFailedRetried)
        else Ok([n])
  }

  lemma RetryTargetsFailed(t: Table, id: string)
    ensures var r := RetryTargets(t, id);
            r.Ok? ==> Distinct(r.value) &&
                      forall i :: 0 <= i < |r.value| ==> r.value[i] in t.rows && t.rows[r.value[i]].status == Failed
  {
    if id == "" {
      var failed := FailedPositions(t.rows);
      OrderDistinct(failed);
      forall i | 0 <= i < |Order(failed)| ensures Order(failed)[i] in t.rows && t.rows[Order(failed)[i]].status == Failed {
        assert Order(failed)[i] in failed;
      }
    }
  }

  function Retry(t: Table, id: string): (Table, Result<nat, Error>) {
    match RetryTargets(t, id)
    case Err(e) => (t, Err(e))
    case Ok(ns) => RetryTargetsFailed(t, id); (t.(rows := RequeueAll(t.rows, ns)), Ok(|ns|))
  }

  function Unfinished(rows: map<int, Row>): map<int, Row> {
    map n | n in rows && rows[n].status != Succeeded && rows[n].status != Failed :: rows[n]
  }

  function Clear(t: Table): Table {
    t.(rows := Unfinished(t.rows))
  }

  // ---------- Operations as data ----------

  datatype Op =
    | OpSubmit(command: seq<string>)
    | OpClaim(worker: string, host: string)
    | OpFinish(id: string, exitCode: Option<int>, error: string)
    | OpOutput(id: string, path: string)
    | OpRequestCancel(id: string)
    | OpRecover
    | OpReorder(id: string, other: string)
    | OpRemove(id: string)
    | OpRemoveAll
    | OpRetry(id: string)
    | OpClear

  function Apply(t: Table, now: Time, op: Op): Table {
    match op
    case OpSubmit(command) => Submit(t, now, command).0
    case OpClaim(worker, host) => Claim(t, now, worker, host).0
    case OpFinish(id, exitCode, error) => Finish(t, now, id, exitCode, error).0
    case OpOutput(id, path) => Output(t, id, path).0
    case OpRequestCancel(id) => RequestCancel(t, id).0
    case OpRecover => Recover(t, now)
    case OpReorder(id, other) => Reorder(t, id, other).0
    case OpRemove(id) => Remove(t, id).0
    case OpRemoveAll => RemoveAll(t).0
    case OpRetry(id) => Retry(t, id).0
    case OpClear => Clear(t)
  }

  type Run = seq<(Time, Op)>

  function Execute(t: Table, run: Run): Table
    decreases |run|
  {
    if run == [] then t else Execute(Apply(t, run[0].0, run[0].1), run[1..])
  }
}
