/** The poller: it asks external systems for the results of parked runs, one run after the other. */
module StatusPoller {
  import opened Basics
  import opened Schedule
  import opened Rows
  import opened Payloads
  import opened Operations
  import opened Protocol
  import opened Entities
  import opened Promises
  import opened PromisesKept
  import opened Invariants
  import opened Snapshots
  import opened Stalls
  import Runs = JobRunService

  const STATUS_URL := "status_url"

  /** Whether `template.format(external_id=id)` succeeds: it raises for an unknown field or an open brace. */
  type Formatter = (string, string) -> bool

  /** The run names an external job and has a template that Python takes for true. */
  predicate HasTemplate(row: RunRow) {
    NonEmpty(row.externalId) && Get(OrEmpty(row.work.payload), STATUS_URL).Truthy()
  }

  /** Formatting raises, outside of every `except`; a template that is no text has no `format` at all. */
  predicate Breaks(fmt: Formatter, row: RunRow) {
    && HasTemplate(row)
    && var template := Get(OrEmpty(row.work.payload), STATUS_URL);
       !(template.Text? && fmt(template.s, row.externalId.value))
  }

  /** The same two, column by column. */
  predicate Asked(row: RunRow) {
    && row.externalId.Some? && row.externalId.value != "" && row.work.payload.Some?
    && "status_url" in row.work.payload.value && row.work.payload.value["status_url"].Truthy()
  }

  predicate Formats(fmt: Formatter, row: RunRow) {
    Asked(row) ==>
      match row.work.payload.value["status_url"]
      case Text(template) => fmt(template, row.externalId.value)
      case _ => false
  }

  lemma TemplateColumns(fmt: Formatter, row: RunRow)
    ensures HasTemplate(row) <==> Asked(row)
    ensures Breaks(fmt, row) <==> !Formats(fmt, row)
  {
    assert STATUS_URL == "status_url";
  }

  /** What the external system says of a parked run; silence covers errors of the request and unfinished work. */
  datatype Reply = Done(text: string) | Broken(text: string, error: string) | Silent

  function PollStep(r: RunId, reply: Reply): Action {
    match reply
    case Done(text) => ReportStatus(r, Some(Success), Output(Some(text), None, None))
    case Broken(text, error) => ReportStatus(r, Some(Failed), Output(None, Some(text), Some(error)))
    case Silent => Tick(0)
  }

  function ReplyTo(row: RunRow, r: RunId, replies: map<RunId, Reply>): Reply {
    if HasTemplate(row) && r in replies then replies[r] else Silent
  }

  predicate Parked(w: World, order: seq<RunId>) {
    NoDuplicates(order) && forall r | r in order :: r in w.runs && w.runs[r].status.AwaitingResult?
  }

  /** The place of the first run whose template cannot be formatted, or the end. */
  function FirstBreak(w: World, fmt: Formatter, order: seq<RunId>, from: nat): (k: nat)
    requires from <= |order| && forall r | r in order :: r in w.runs
    ensures from <= k <= |order|
    ensures forall i | from <= i < k :: !Breaks(fmt, w.runs[order[i]])
    ensures k < |order| ==> Breaks(fmt, w.runs[order[k]])
    decreases |order| - from
  {
    if from == |order| || Breaks(fmt, w.runs[order[from]]) then from else FirstBreak(w, fmt, order, from + 1)
  }

  /** The steps of a round: one for each run before the first break. */
  function RoundActs(w: World, fmt: Formatter, order: seq<RunId>, replies: map<RunId, Reply>): (acts: seq<Action>)
    requires forall r | r in order :: r in w.runs
    ensures |acts| == FirstBreak(w, fmt, order, 0)
  {
    seq(FirstBreak(w, fmt, order, 0), i requires 0 <= i < FirstBreak(w, fmt, order, 0) =>
      PollStep(order[i], ReplyTo(w.runs[order[i]], order[i], replies)))
  }

  function After(w: World, acts: seq<Action>): World {
    if acts == [] then w else Step(After(w, acts[..|acts| - 1]), acts[|acts| - 1])
  }

  /** What a reply makes of a run. */
  predicate RowPolled(row: RunRow, row': RunRow, reply: Reply, now: Time) {
    match reply
    case Done(text) => RowReported(row, row', Some(Success), Output(Some(text), None, None), now)
    case Broken(text, error) => RowReported(row, row', Some(Failed), Output(None, Some(text), Some(error)), now)
    case Silent => row' == row
  }

  // ---------------------------------------------------------------- one round

  lemma OthersStay(w: World, r: RunId, reply: Reply, s: RunId)
    requires IdsBelow(w) && s in w.runs && s != r
    ensures s in Step(w, PollStep(r, reply)).runs && Step(w, PollStep(r, reply)).runs[s] == w.runs[s]
  {
    hide StatusApplied, WithOutput, RetryOf;
  }

  method PollOne(db: Database, r: RunId, reply: Reply)
    requires Inv(db.tables)
    modifies db
    ensures db.tables == Step(old(db.tables), PollStep(r, reply)) && Inv(db.tables)
    ensures forall s | s in old(db.tables).runs && s != r ::
              s in db.tables.runs && db.tables.runs[s] == old(db.tables).runs[s]
    ensures r in old(db.tables).runs ==>
              && r in db.tables.runs && db.tables.now == old(db.tables).now
              && RowPolled(old(db.tables).runs[r], db.tables.runs[r], reply, old(db.tables).now)
  {
    hide Inv, Completed, Started, RetryOf, Operations.UpdateStatus, RowReported;
    InvKept(db.tables, PollStep(r, reply));
    InvNames(db.tables);
    forall s | s in db.tables.runs && s != r
      ensures s in Step(db.tables, PollStep(r, reply)).runs
      ensures Step(db.tables, PollStep(r, reply)).runs[s] == db.tables.runs[s]
    {
      OthersStay(db.tables, r, reply, s);
    }
    var runs := new Runs.Service(db);
    if reply.Done? {
      var found := runs.UpdateStatus(r, Some(Success), Output(Some(reply.text), None, None));
    } else if reply.Broken? {
      var found := runs.UpdateStatus(r, Some(Failed), Output(None, Some(reply.text), Some(reply.error)));
    }
  }

  /** poll_awaiting_runs, over the parked runs in the order the query returned them. The round raises if and
      only if some parked run has a template that cannot be formatted; then exactly the runs before the first
      such one are polled, and otherwise all of them. */
  method PollAwaitingRuns(db: Database, fmt: Formatter, replies: map<RunId, Reply>)
    returns (order: seq<RunId>, polled: nat, raised: bool)
    requires Inv(db.tables)
    modifies db
    ensures Inv(db.tables) && Parked(old(db.tables), order)
    ensures forall r :: r in order <==> r in old(db.tables).runs && old(db.tables).runs[r].status.AwaitingResult?
    ensures polled == FirstBreak(old(db.tables), fmt, order, 0)
    ensures raised <==> exists r :: r in old(db.tables).runs && old(db.tables).runs[r].status.AwaitingResult?
                                    && Breaks(fmt, old(db.tables).runs[r])
    ensures raised <==> exists r :: r in old(db.tables).runs && old(db.tables).runs[r].status.AwaitingResult?
                                    && !Formats(fmt, old(db.tables).runs[r])
    ensures !raised ==> polled == |order|
    ensures forall k | 0 <= k < polled ::
              && Formats(fmt, old(db.tables).runs[order[k]]) && order[k] in db.tables.runs
              && RowPolled(old(db.tables).runs[order[k]], db.tables.runs[order[k]],
                           if Asked(old(db.tables).runs[order[k]]) && order[k] in replies then replies[order[k]]
                           else Silent,
                           old(db.tables).now)
    ensures forall k | polled <= k < |order| ::
              order[k] in db.tables.runs && db.tables.runs[order[k]] == old(db.tables).runs[order[k]]
    ensures db.tables == After(old(db.tables), RoundActs(old(db.tables), fmt, order, replies))
  {
    hide Inv, Step, PollStep, ReplyTo, Breaks, FirstBreak, HasTemplate, Asked, Formats, RowPolled;
    hide RoundActs, SoFar, After;
    ghost var w := db.tables;
    var awaiting: set<RunId> := set r | r in db.tables.runs.Keys && db.tables.runs[r].status.AwaitingResult?;
    order := Enumerate(awaiting);
    polled := 0;
    RoundBegins(w, fmt, order, replies);
    while polled < |order|
      invariant polled <= |order| && Inv(db.tables) && SoFar(w, db.tables, fmt, order, replies, polled)
    {
      SoFarRow(w, db.tables, fmt, order, replies, polled);
      var run := db.tables.runs[order[polled]];
      if Breaks(fmt, run) {
        assert order[polled] in order;
        RoundEnds(w, db.tables, fmt, order, replies, polled);
        return order, polled, true;
      }
      ghost var before := db.tables;
      PollOne(db, order[polled], ReplyTo(run, order[polled], replies));
      RoundContinues(w, before, db.tables, fmt, order, replies, polled);
      polled := polled + 1;
    }
    RoundEnds(w, db.tables, fmt, order, replies, polled);
    forall r | r in w.runs && w.runs[r].status.AwaitingResult?
      ensures r in order
    {
      assert r in awaiting;
    }
    return order, polled, false;
  }

  /** The tables after n runs of the round, none of which had a bad template. */
  ghost predicate SoFar(w: World, w': World, fmt: Formatter, order: seq<RunId>, replies: map<RunId, Reply>, n: nat) {
    && Parked(w, order) && n <= FirstBreak(w, fmt, order, 0) && w'.now == w.now
    && w' == After(w, RoundActs(w, fmt, order, replies)[..n])
    && (forall k | 0 <= k < n ::
          && order[k] in w'.runs
          && RowPolled(w.runs[order[k]], w'.runs[order[k]], ReplyTo(w.runs[order[k]], order[k], replies), w.now))
    && (forall k | n <= k < |order| :: order[k] in w'.runs && w'.runs[order[k]] == w.runs[order[k]])
  }

  lemma RoundBegins(w: World, fmt: Formatter, order: seq<RunId>, replies: map<RunId, Reply>)
    requires Parked(w, order)
    ensures SoFar(w, w, fmt, order, replies, 0)
  {
    hide Step, FirstBreak, Breaks;
  }

  lemma SoFarRow(w: World, w': World, fmt: Formatter, order: seq<RunId>, replies: map<RunId, Reply>, n: nat)
    requires SoFar(w, w', fmt, order, replies, n) && n < |order|
    ensures order[n] in w.runs && order[n] in w'.runs && w'.runs[order[n]] == w.runs[order[n]] && w'.now == w.now
  {
    hide Step, FirstBreak, Breaks, RowPolled, After, RoundActs;
    assert order[n] in order;
  }

  lemma RoundContinues(w: World, before: World, after: World, fmt: Formatter, order: seq<RunId>,
                       replies: map<RunId, Reply>, n: nat)
    requires SoFar(w, before, fmt, order, replies, n) && n < |order| && order[n] in w.runs
    requires !Breaks(fmt, w.runs[order[n]])
    requires after == Step(before, PollStep(order[n], ReplyTo(w.runs[order[n]], order[n], replies)))
    requires forall s | s in before.runs && s != order[n] :: s in after.runs && after.runs[s] == before.runs[s]
    requires order[n] in after.runs && after.now == before.now
    requires RowPolled(w.runs[order[n]], after.runs[order[n]], ReplyTo(w.runs[order[n]], order[n], replies), w.now)
    ensures SoFar(w, after, fmt, order, replies, n + 1)
  {
    hide Step, PollStep, ReplyTo, Breaks, FirstBreak, RowPolled;
    var acts := RoundActs(w, fmt, order, replies);
    assert acts[..n + 1][..n] == acts[..n];
    assert acts[n] == PollStep(order[n], ReplyTo(w.runs[order[n]], order[n], replies));
  }

  lemma RoundEnds(w: World, w': World, fmt: Formatter, order: seq<RunId>, replies: map<RunId, Reply>, n: nat)
    requires SoFar(w, w', fmt, order, replies, n) && n <= |order|
    requires n == |order| || (order[n] in w.runs && Breaks(fmt, w.runs[order[n]]))
    ensures n == FirstBreak(w, fmt, order, 0) && w' == After(w, RoundActs(w, fmt, order, replies))
    ensures n < |order| ==> !Formats(fmt, w.runs[order[n]])
    ensures forall k | 0 <= k < |order| :: order[k] in w.runs && order[k] in w'.runs
    ensures forall k | 0 <= k < n ::
              && !Breaks(fmt, w.runs[order[k]]) && Formats(fmt, w.runs[order[k]])
              && RowPolled(w.runs[order[k]], w'.runs[order[k]],
                           if Asked(w.runs[order[k]]) && order[k] in replies then replies[order[k]] else Silent, w.now)
    ensures forall k | n <= k < |order| :: w'.runs[order[k]] == w.runs[order[k]]
  {
    hide Step, PollStep, Breaks, FirstBreak, RowPolled, HasTemplate, Asked, Formats;
    forall row
      ensures (HasTemplate(row) <==> Asked(row)) && (Breaks(fmt, row) <==> !Formats(fmt, row))
    {
      TemplateColumns(fmt, row);
    }
    assert forall k | 0 <= k < |order| :: order[k] in order;
    var acts := RoundActs(w, fmt, order, replies);
    assert acts[..|acts|] == acts;
  }

  // ---------------------------------------------------------------- who is finished

  predicate Answers(reply: Reply) {
    reply.Done? || reply.Broken?
  }

  lemma AnswerFinishes(w: World, r: RunId, reply: Reply)
    requires IdsBelow(w) && r in w.runs && Answers(reply)
    ensures r in Step(w, PollStep(r, reply)).runs
    ensures Step(w, PollStep(r, reply)).runs[r].status == if reply.Done? then Success else Failed
  {
    hide RetryOf;
  }

  /** After the first n steps of a round the answered runs among them are finished, and the rest is untouched. */
  lemma {:induction false} RoundPrefix(w: World, fmt: Formatter, order: seq<RunId>, replies: map<RunId, Reply>, n: nat)
    requires Inv(w) && Parked(w, order) && n <= FirstBreak(w, fmt, order, 0)
    ensures var w' := After(w, RoundActs(w, fmt, order, replies)[..n]);
            && Inv(w')
            && (forall k | 0 <= k < |order| :: order[k] in w'.runs)
            && (forall k | n <= k < |order| :: w'.runs[order[k]] == w.runs[order[k]])
            && (forall k | 0 <= k < n && Answers(ReplyTo(w.runs[order[k]], order[k], replies)) ::
                  w'.runs[order[k]].status
                  == if ReplyTo(w.runs[order[k]], order[k], replies).Done? then Success else Failed)
  {
    hide Inv, Step, PollStep, ReplyTo, Breaks, FirstBreak, Answers;
    if n > 0 {
      RoundPrefix(w, fmt, order, replies, n - 1);
      var acts := RoundActs(w, fmt, order, replies);
      var r, before := order[n - 1], After(w, acts[..n - 1]);
      var reply := ReplyTo(w.runs[r], r, replies);
      assert acts[..n][..n - 1] == acts[..n - 1] && acts[n - 1] == PollStep(r, reply);
      InvNames(before);
      InvKept(before, PollStep(r, reply));
      forall k | 0 <= k < |order| && k != n - 1
        ensures order[k] in Step(before, PollStep(r, reply)).runs
        ensures Step(before, PollStep(r, reply)).runs[order[k]] == before.runs[order[k]]
      {
        OthersStay(before, r, reply, order[k]);
      }
      PolledStays(before, r, reply);
      if Answers(reply) {
        AnswerFinishes(before, r, reply);
      }
    }
  }

  lemma PolledStays(w: World, r: RunId, reply: Reply)
    requires r in w.runs && IdsBelow(w)
    ensures r in Step(w, PollStep(r, reply)).runs
  {
    hide StatusApplied, WithOutput, RetryOf;
  }

  /** For every consistent state, every order and all replies: a parked run whose external system answers gets
      the status of the answer by the round if and only if no run before it, nor itself, has a template that
      cannot be formatted; otherwise its row is left exactly as it was. */
  lemma RoundFinishesExactly(w: World, fmt: Formatter, order: seq<RunId>, replies: map<RunId, Reply>, k: nat)
    requires Inv(w) && Parked(w, order) && k < |order|
    requires Answers(ReplyTo(w.runs[order[k]], order[k], replies))
    ensures var w' := After(w, RoundActs(w, fmt, order, replies));
            && order[k] in w'.runs
            && (w'.runs[order[k]].status == (if replies[order[k]].Done? then Success else Failed) <==>
                forall i | 0 <= i <= k :: !Breaks(fmt, w.runs[order[i]]))
            && ((exists i :: 0 <= i <= k && Breaks(fmt, w.runs[order[i]])) ==> w'.runs[order[k]] == w.runs[order[k]])
  {
    hide Inv, Step, PollStep, HasTemplate, Breaks;
    var acts := RoundActs(w, fmt, order, replies);
    assert acts[..|acts|] == acts;
    RoundPrefix(w, fmt, order, replies, |acts|);
    assert order[k] in order;
  }

  // ---------------------------------------------------------------- a template that blocks the others

  /** Job 0 without dependencies, with two runs of the given payloads. */
  predicate TwoRuns(w: World, p0: Payload, p1: Payload) {
    && w.jobs.Keys == {0} && w.nextJob == 1 && w.deps == map[] && w.nextRun == 2 && w.runs.Keys == {0, 1}
    && w.jobs[0].enabled && w.jobs[0].status.On()
    && w.runs[0].job == 0 && w.runs[1].job == 0
    && w.runs[0].work.payload == Some(p0) && w.runs[1].work.payload == Some(p1)
  }

  predicate OneJob(w: World, p: Payload) {
    && w.jobs.Keys == {0} && w.nextJob == 1 && w.deps == map[] && w.jobs[0].enabled && w.jobs[0].status.On()
    && Acceptable(w.jobs[0]) && w.jobs[0].work.payload == Some(p)
  }

  function PollRequest(template: string, timeout: int): Request {
    Request(ApiPoll, None, map[STATUS_URL := Text(template)], None, None, None, None, None, None, timeout)
  }

  function NewTemplate(template: string): JobEdit {
    NO_EDIT.(change := Ok(UNCHANGED.(payload := Some(Some(map[STATUS_URL := Text(template)])))))
  }

  lemma Created(w: World, name: string, template: string, timeout: int)
    requires Initial(w) && timeout > 0
    ensures var spec := ManualJob(name, 0, PollRequest(template, timeout));
            var w' := CreateJob(w, spec);
            OneJob(w', map[STATUS_URL := Text(template)]) && w'.runs == map[] && w'.nextRun == 0
  {
    hide ResolveScheduleRule, ComputeNextRun;
  }

  lemma Edited(w: World, p: Payload, template: string)
    requires OneJob(w, p)
    ensures var w' := EditJob(w, 0, NewTemplate(template));
            OneJob(w', map[STATUS_URL := Text(template)]) && w'.runs == w.runs && w'.nextRun == w.nextRun
  {
    hide ResolveScheduleRule, ComputeNextRun;
  }

  lemma Triggered(w1: World, w2: World, p0: Payload, p1: Payload)
    requires OneJob(w1, p0) && w1.runs == map[] && w1.nextRun == 0
    requires OneJob(w2, p1) && w2.runs == TriggerJob(w1, 0, ByHand).runs && w2.nextRun == 1
    ensures var w := TriggerJob(w2, 0, ByHand);
            TwoRuns(w, p0, p1) && w.runs[0].status.Pending? && w.runs[1].status.Pending?
  {
  }

  lemma PulledRun(w: World, p0: Payload, p1: Payload, worker: string, r: RunId)
    requires TwoRuns(w, p0, p1) && r in w.runs && w.runs[r].status.Pending?
    requires r == 1 ==> !w.runs[0].status.Pending?
    ensures var w' := Dequeue(w, worker, 3600, IDLE);
            && TwoRuns(w', p0, p1) && w'.runs[r].status.Running?
            && (forall s | s in w.runs && s != r :: w'.runs[s] == w.runs[s])
  {
    hide FindNextRunToLock;
    ChoiceIsOldestReady(w, IDLE);
    assert DepsSatisfied(w, 0) && ReadyRun(w, IDLE, r);
  }

  lemma ParkedRun(w: World, p0: Payload, p1: Payload, r: RunId, id: string)
    requires TwoRuns(w, p0, p1) && r in w.runs && id != ""
    ensures var w' := Park(w, r, id, None);
            && TwoRuns(w', p0, p1) && w'.runs[r].status.AwaitingResult? && w'.runs[r].externalId == Some(id)
            && (forall s | s in w.runs && s != r :: w'.runs[s] == w.runs[s])
  {
  }

  lemma OnlyFirstBreaks(w: World, fmt: Formatter, bad: string, good: string)
    requires TwoRuns(w, map[STATUS_URL := Text(bad)], map[STATUS_URL := Text(good)]) && bad != ""
    requires w.runs[0].status.AwaitingResult? && w.runs[1].status.AwaitingResult?
    requires w.runs[0].externalId == Some("a") && w.runs[1].externalId == Some("b")
    requires !fmt(bad, "a") && fmt(good, "b")
    ensures Parked(w, [0, 1]) && Breaks(fmt, w.runs[0]) && !Breaks(fmt, w.runs[1])
    ensures FirstBreak(w, fmt, [0, 1], 0) == 0
  {
  }

  /** For every template that cannot be formatted and every one that can: a history in which a job is created
      with the first and triggered, then corrected by an edit and triggered again, and both runs are claimed and
      parked. A round that meets the old run first polls neither, whatever the external systems would say. */
  lemma BrokenTemplateBlocks(w0: World, name: string, fmt: Formatter, bad: string, good: string, timeout: int)
    returns (tr: seq<World>, acts: seq<Action>)
    requires Initial(w0) && timeout > 0 && bad != "" && !fmt(bad, "a") && fmt(good, "b")
    ensures History(tr, acts) && tr[0] == w0 && |acts| == 8 && Parked(tr[8], [0, 1])
    ensures Breaks(fmt, tr[8].runs[0]) && !Breaks(fmt, tr[8].runs[1])
    ensures forall replies :: After(tr[8], RoundActs(tr[8], fmt, [0, 1], replies)) == tr[8]
  {
    hide CreateJob, EditJob, TriggerJob, Dequeue, Park, TwoRuns, FirstBreak, Breaks, Parked, Step;
    var spec := ManualJob(name, 0, PollRequest(bad, timeout));
    acts := [Create(spec), TriggerNow(0, ByHand), Edit(0, NewTemplate(good)), TriggerNow(0, ByHand),
             Pull("w", 3600, IDLE), Pull("w", 3600, IDLE), Await(0, "a", None), Await(1, "b", None)];
    var w1 := CreateJob(w0, spec);
    var w2 := TriggerJob(w1, 0, ByHand);
    var w3 := EditJob(w2, 0, NewTemplate(good));
    var w4 := TriggerJob(w3, 0, ByHand);
    TwoTriggered(w0, name, bad, good, timeout);
    var w5 := Dequeue(w4, "w", 3600, IDLE);
    var w6 := Dequeue(w5, "w", 3600, IDLE);
    var w7 := Park(w6, 0, "a", None);
    var w8 := Park(w7, 1, "b", None);
    TwoParked(w4, map[STATUS_URL := Text(bad)], map[STATUS_URL := Text(good)]);
    OnlyFirstBreaks(w8, fmt, bad, good);
    tr := [w0, w1, w2, w3, w4, w5, w6, w7, w8];
    RequestSteps(w0, w2, spec, NewTemplate(good));
    WorkerSteps(w4, w6);
    assert StepAt(tr, acts, 0) && StepAt(tr, acts, 1) && StepAt(tr, acts, 2) && StepAt(tr, acts, 3);
    assert StepAt(tr, acts, 4) && StepAt(tr, acts, 5) && StepAt(tr, acts, 6) && StepAt(tr, acts, 7);
  }

  lemma RequestSteps(w0: World, w2: World, spec: JobSpec, edit: JobEdit)
    ensures Step(w0, Create(spec)) == CreateJob(w0, spec)
    ensures forall w :: Step(w, TriggerNow(0, ByHand)) == TriggerJob(w, 0, ByHand)
    ensures Step(w2, Edit(0, edit)) == EditJob(w2, 0, edit)
  {
    hide CreateJob, EditJob, TriggerJob;
  }

  lemma WorkerSteps(w4: World, w6: World)
    ensures forall w :: Step(w, Pull("w", 3600, IDLE)) == Dequeue(w, "w", 3600, IDLE)
    ensures Step(w6, Await(0, "a", None)) == Park(w6, 0, "a", None)
    ensures forall w :: Step(w, Await(1, "b", None)) == Park(w, 1, "b", None)
  {
    hide Dequeue, Park;
  }

  lemma TwoTriggered(w: World, name: string, bad: string, good: string, timeout: int)
    requires Initial(w) && timeout > 0
    ensures var spec := ManualJob(name, 0, PollRequest(bad, timeout));
            var w' := TriggerJob(EditJob(TriggerJob(CreateJob(w, spec), 0, ByHand), 0, NewTemplate(good)), 0, ByHand);
            && TwoRuns(w', map[STATUS_URL := Text(bad)], map[STATUS_URL := Text(good)])
            && 0 in w'.runs && 1 in w'.runs && w'.runs[0].status.Pending? && w'.runs[1].status.Pending?
  {
    hide CreateJob, EditJob, TriggerJob, OneJob;
    var p0, p1 := map[STATUS_URL := Text(bad)], map[STATUS_URL := Text(good)];
    var w1 := CreateJob(w, ManualJob(name, 0, PollRequest(bad, timeout)));
    Created(w, name, bad, timeout);
    var w2 := TriggerJob(w1, 0, ByHand);
    StillOneJob(w1, p0);
    Edited(w2, p0, good);
    Triggered(w1, EditJob(w2, 0, NewTemplate(good)), p0, p1);
  }

  lemma TwoParked(w: World, p0: Payload, p1: Payload)
    requires TwoRuns(w, p0, p1) && 0 in w.runs && 1 in w.runs
    requires w.runs[0].status.Pending? && w.runs[1].status.Pending?
    ensures var w' := Park(Park(Dequeue(Dequeue(w, "w", 3600, IDLE), "w", 3600, IDLE), 0, "a", None), 1, "b", None);
            && TwoRuns(w', p0, p1) && 0 in w'.runs && 1 in w'.runs
            && w'.runs[0].status.AwaitingResult? && w'.runs[1].status.AwaitingResult?
            && w'.runs[0].externalId == Some("a") && w'.runs[1].externalId == Some("b")
  {
    hide Dequeue, Park, TwoRuns;
    PulledRun(w, p0, p1, "w", 0);
    var w1 := Dequeue(w, "w", 3600, IDLE);
    Keyed(w1, p0, p1);
    PulledRun(w1, p0, p1, "w", 1);
    var w2 := Dequeue(w1, "w", 3600, IDLE);
    Keyed(w2, p0, p1);
    ParkedRun(w2, p0, p1, 0, "a");
    var w3 := Park(w2, 0, "a", None);
    Keyed(w3, p0, p1);
    ParkedRun(w3, p0, p1, 1, "b");
    Keyed(Park(w3, 1, "b", None), p0, p1);
  }

  lemma Keyed(w: World, p0: Payload, p1: Payload)
    requires TwoRuns(w, p0, p1)
    ensures 0 in w.runs && 1 in w.runs
  {
  }

  lemma StillOneJob(w: World, p: Payload)
    requires OneJob(w, p)
    ensures OneJob(TriggerJob(w, 0, ByHand), p) && TriggerJob(w, 0, ByHand).nextRun == w.nextRun + 1
  {
  }
}
