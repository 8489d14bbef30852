/**
 Runs of the coordinator's whole table of asset requests: requests open at any time, their events interleave, a node
 socket that drops and the clock concern all of them. Each request lives a run of its own, whatever the others do.
 */
module AssetRuns {
  import opened NodeAssets
  import opened Options

  type Lives = map<string, Life>

  /** The requests by id, settled ones included. */
  datatype Table = Table(now: int, lives: Lives)

  datatype TableEvent =
    | Opened(id: string, node: string, connected: bool)
    | Handled(id: string, event: Event)
    | NodeLost(node: string)
    | Passed(until: int)

  /** The node a request went to, and when. */
  datatype Opening = Opening(node: string, at: int)

  /** One request takes a step; an unknown id is ignored. */
  function On(lives: Lives, id: string, e: Event): Lives {
    if id in lives then lives[id := Step(lives[id], e)] else lives
  }

  function OnEach(lives: Lives, e: Event): Lives {
    map id | id in lives :: Step(lives[id], e)
  }

  function TableStep(t: Table, e: TableEvent): Table {
    match e
    case Opened(id, node, connected) => if connected then t.(lives := t.lives[id := Begin(node, t.now)]) else t
    case Handled(id, event) => t.(lives := On(t.lives, id, event))
    case NodeLost(node) => t.(lives := OnEach(t.lives, NodeDown(node)))
    case Passed(until) => Table(until, OnEach(t.lives, Wait(until)))
  }

  /** Ids are fresh; a suspended handler that continues has a request; time passes no timer of any request. */
  ghost predicate Allowed(t: Table, e: TableEvent) {
    match e
    case Opened(id, _, _) => id !in t.lives
    case Handled(id, event) =>
      && !event.NodeDown? && !event.Wait? && (event.Continue? ==> id in t.lives)
      && (id in t.lives ==> Enabled(t.lives[id], event))
    case NodeLost(_) => true
    case Passed(until) => t.now <= until && forall id :: id in t.lives ==> Enabled(t.lives[id], Wait(until))
  }

  function Reached(start: int, run: seq<TableEvent>): Table
    decreases |run|
  {
    if run == [] then Table(start, map[]) else TableStep(Reached(start, run[..|run| - 1]), run[|run| - 1])
  }

  ghost predicate IsTableRun(start: int, run: seq<TableEvent>)
    decreases |run|
  {
    run == [] || (var before := run[..|run| - 1];
                  IsTableRun(start, before) && Allowed(Reached(start, before), run[|run| - 1]))
  }

  /** How the request with this id began, if it was opened. */
  function Birth(start: int, run: seq<TableEvent>, id: string): Option<Opening>
    decreases |run|
  {
    if run == [] then None
    else
      var before, e := run[..|run| - 1], run[|run| - 1];
      if e.Opened? && e.id == id && e.connected then Some(Opening(e.node, Reached(start, before).now))
      else Birth(start, before, id)
  }

  /** What concerned the request with this id since it was opened. */
  function Story(run: seq<TableEvent>, id: string): seq<Event>
    decreases |run|
  {
    if run == [] then []
    else
      var story := Story(run[..|run| - 1], id);
      match run[|run| - 1]
      case Opened(i, _, connected) => if i == id && connected then [] else story
      case Handled(i, event) => if i == id then story + [event] else story
      case NodeLost(node) => story + [NodeDown(node)]
      case Passed(until) => story + [Wait(until)]
  }

  // ---------- every life is a run ----------

  lemma {:induction false} AfterSnoc(l: Life, es: seq<Event>, e: Event)
    requires IsRun(l, es) && Enabled(After(l, es), e)
    ensures IsRun(l, es + [e]) && After(l, es + [e]) == Step(After(l, es), e)
    decreases es
  {
    if es == [] {
      assert ([e])[1..] == [];
    } else {
      AfterSnoc(Step(l, es[0]), es[1..], e);
      assert (es + [e])[1..] == es[1..] + [e];
    }
  }

  function Born(birth: Opening): Life {
    Begin(birth.node, birth.at)
  }

  /** The request with this id is in the table exactly when it was opened, and its life is the run of its own story. */
  ghost predicate LivesItsStory(start: int, run: seq<TableEvent>, id: string) {
    var t, birth, story := Reached(start, run), Birth(start, run, id), Story(run, id);
    && (id in t.lives <==> birth.Some?)
    && (id in t.lives ==> IsRun(Born(birth.value), story) && t.lives[id] == After(Born(birth.value), story))
  }

  lemma {:induction false} RunTellsStories(start: int, run: seq<TableEvent>, id: string)
    requires IsTableRun(start, run)
    ensures LivesItsStory(start, run, id)
    decreases |run|
  {
    hide Step;
    hide IsRun;
    hide After;
    if run != [] {
      var before, e := run[..|run| - 1], run[|run| - 1];
      var t := Reached(start, before);
      RunTellsStories(start, before, id);
      match e
      case Opened(i, node, _) => NothingYet(Begin(node, t.now));
      case Handled(_, event) => OneMore(start, before, id, event);
      case NodeLost(node) => OneMore(start, before, id, NodeDown(node));
      case Passed(until) => OneMore(start, before, id, Wait(until));
    }
  }

  lemma NothingYet(l: Life)
    ensures IsRun(l, []) && After(l, []) == l
  {
  }

  lemma OneMore(start: int, run: seq<TableEvent>, id: string, e: Event)
    requires LivesItsStory(start, run, id)
    ensures var t, birth, story := Reached(start, run), Birth(start, run, id), Story(run, id);
            id in t.lives && Enabled(t.lives[id], e) ==>
              && IsRun(Born(birth.value), story + [e])
              && After(Born(birth.value), story + [e]) == Step(t.lives[id], e)
  {
    var t := Reached(start, run);
    if id in t.lives && Enabled(t.lives[id], e) {
      AfterSnoc(Born(Birth(start, run, id).value), Story(run, id), e);
    }
  }

  // ---------- what holds of every table ----------

  ghost predicate AllInv(t: Table) {
    forall id :: id in t.lives ==> Inv(t.lives[id]) && t.lives[id].now == t.now
  }

  lemma OnKeeps(t: Table, id: string, e: Event)
    requires AllInv(t) && !e.Wait? && (id in t.lives ==> Enabled(t.lives[id], e))
    ensures AllInv(t.(lives := On(t.lives, id, e)))
  {
    hide Inv;
    if id in t.lives {
      StepKeeps(t.lives[id], e);
    }
  }

  lemma OnEachKeeps(t: Table, e: Event, now: int)
    requires AllInv(t) && forall id :: id in t.lives ==> Enabled(t.lives[id], e)
    requires now == if e.Wait? then e.until else t.now
    ensures AllInv(Table(now, OnEach(t.lives, e)))
  {
    hide Inv;
    forall id | id in t.lives ensures Inv(Step(t.lives[id], e)) {
      StepKeeps(t.lives[id], e);
    }
  }

  lemma TableStepKeeps(t: Table, e: TableEvent)
    requires AllInv(t) && Allowed(t, e)
    ensures AllInv(TableStep(t, e))
  {
    hide Inv;
    hide Step;
    match e
    case Opened(_, node, _) => BeginKeeps(node, t.now);
    case Handled(id, event) => OnKeeps(t, id, event);
    case NodeLost(node) => OnEachKeeps(t, NodeDown(node), t.now);
    case Passed(until) => OnEachKeeps(t, Wait(until), until);
  }

  lemma {:induction false} TableRunKeeps(start: int, run: seq<TableEvent>)
    requires IsTableRun(start, run)
    ensures AllInv(Reached(start, run))
    decreases |run|
  {
    hide Inv;
    if run != [] {
      TableRunKeeps(start, run[..|run| - 1]);
      TableStepKeeps(Reached(start, run[..|run| - 1]), run[|run| - 1]);
    }
  }

  /** The request was sent when it was opened, and is settled once and in time, on the table's one clock. */
  ghost predicate KeepsItsWord(start: int, run: seq<TableEvent>, id: string)
    requires id in Reached(start, run).lives
  {
    var t, birth := Reached(start, run), Birth(start, run, id);
    var l := t.lives[id];
    && SettlesOnce(l) && InTime(l) && l.now == t.now
    && birth.Some? && l.trace != [] && l.trace[0] == Sent(birth.value.at)
  }

  lemma RequestKeepsItsWord(start: int, run: seq<TableEvent>, id: string)
    requires IsTableRun(start, run) && id in Reached(start, run).lives
    ensures KeepsItsWord(start, run, id)
  {
    hide SettlesOnce;
    hide InTime;
    hide IsRun;
    hide After;
    hide Inv;
    RunTellsStories(start, run, id);
    TableRunKeeps(start, run);
    InvSettlesOnce(Reached(start, run).lives[id]);
    var birth := Birth(start, run, id).value;
    RunKeepsDeadlines(birth.node, birth.at, Story(run, id));
  }

  /**
   In every run of the table, all requests at once: each lives the run of its own story, whatever happens to the others;
   each is settled once and fed in order; and none is pending past a deadline, counted from its own opening.
   */
  lemma TableRunIsSafe(start: int, run: seq<TableEvent>)
    requires IsTableRun(start, run)
    ensures forall id :: LivesItsStory(start, run, id)
    ensures forall id :: id in Reached(start, run).lives ==> KeepsItsWord(start, run, id)
  {
    hide LivesItsStory;
    hide KeepsItsWord;
    forall id ensures LivesItsStory(start, run, id) {
      RunTellsStories(start, run, id);
    }
    forall id | id in Reached(start, run).lives ensures KeepsItsWord(start, run, id) {
      RequestKeepsItsWord(start, run, id);
    }
  }

  /** A node socket that drops leaves none of its requests pending, and touches no request of another node. */
  lemma LostNodeHasNone(t: Table, node: string, id: string)
    requires id in t.lives
    ensures var l, l' := t.lives[id], TableStep(t, NodeLost(node)).lives[id];
            if l.pending.Some? && l.pending.value.node == node
            then l'.pending.None? && l'.trace == l.trace + [Aborted, Rejected(503)]
            else l' == l
  {
  }
}
