// The entities of workflow/types.go that several components share.
module Types {
  import opened Ids
  import opened Graph

  datatype Scenario = Scenario(id: string, uri: string, name: string, steps: seq<string>)

  // A duration in nanoseconds, once parsed.
  datatype Timeout = NoTimeout | Malformed | Lasting(nanoseconds: int)

  // What a task runs: a command or a prompt.
  datatype Work = Work(run: seq<string>, prompt: string, model: string, effort: string, expectedExit: int,
                       timeout: Timeout)

  predicate EffortOk(effort: string) {
    effort in {"", "low", "medium", "high", "xhigh"}
  }

  // A compiled task; attempts is the configured budget of one run. Its prompt is the
  // specification's own, without the texts that the compilers put around it.
  datatype Task = Task(id: Id, needs: seq<Id>, scenarios: seq<Scenario>, attempts: nat, work: Work)

  function NeedsOf(tasks: map<Id, Task>): Needs {
    map id | id in tasks :: tasks[id].needs
  }

  ghost predicate KeyedById(tasks: map<Id, Task>) {
    forall id :: id in tasks ==> tasks[id].id == id
  }

  function IdsOf(tasks: seq<Task>): (ids: seq<Id>)
    ensures |ids| == |tasks|
    ensures forall i :: 0 <= i < |ids| ==> ids[i] == tasks[i].id
  {
    seq(|tasks|, i requires 0 <= i < |tasks| => tasks[i].id)
  }
}
