/**
 * The task store: reading `tasks_list.json`, validating every record, and the
 * two filters on `passes == false` derived from it.
 */
module Tasks {
  import opened Wrappers
  import opened Paths
  import opened Errors
  import opened Json

  datatype Task = Task(category: string, description: string, steps: seq<string>, passes: bool)

  /** The record is a dict with all four task fields present and of the right type. */
  predicate WellShaped(fields: map<string, JsonValue>)
  {
    && "category" in fields && fields["category"].JStr?
    && "description" in fields && fields["description"].JStr?
    && "steps" in fields && IsStrList(fields["steps"])
    && "passes" in fields && fields["passes"].JBool?
  }

  /**
   * `Task(**item)`: a non-dict cannot be unpacked (TypeError); a dict whose
   * fields are missing or mistyped fails validation. Extra keys are ignored.
   */
  function DecodeTask(item: JsonValue): (r: Result<Task, Exc>)
    ensures r.Ok? <==> item.JObj? && WellShaped(item.fields)
    ensures r.Err? ==> r.error == (if item.JObj? then ValidationError else TypeError)
    ensures r.Ok? ==>
              && r.value.category == item.fields["category"].s
              && r.value.description == item.fields["description"].s
              && StrList(r.value.steps) == item.fields["steps"]
              && r.value.passes == item.fields["passes"].b
  {
    if !item.JObj? then Err(TypeError)
    else if !WellShaped(item.fields) then Err(ValidationError)
    else
      var f := item.fields;
      var steps := Strings(f["steps"].items);
      assert StrList(steps).items == f["steps"].items;
      Ok(Task(f["category"].s, f["description"].s, steps, f["passes"].b))
  }

  /**
   * Validating the elements from position `offset` on: the first bad element
   * aborts the whole read, a non-dict with TypeError, an invalid dict with
   * `ValueError("Invalid task at index i")`.
   */
  function ValidateFrom(items: seq<JsonValue>, offset: nat): Result<seq<Task>, Exc>
    decreases |items|
  {
    if |items| == 0 then Ok([])
    else
      match DecodeTask(items[0])
      case Err(e) => Err(if e == ValidationError then ValueError(InvalidTask(offset)) else e)
      case Ok(t) =>
        match ValidateFrom(items[1..], offset + 1)
        case Ok(ts) => Ok([t] + ts)
        case Err(e) => Err(e)
  }

  /** `TasksFile(path).read_tasks()` on a file in the given state. */
  function ReadTasksSpec(file: FileState, path: Path): Result<seq<Task>, Exc>
  {
    match file
    case Missing => Err(FileNotFoundError(path))
    case Undecodable => Err(JSONDecodeError)
    case Decoded(v) => if v.JArr? then ValidateFrom(v.items, 0) else Err(ValueError(NotAList))
  }

  /** Every element decodes: the result has the input's length and order. */
  lemma {:induction false} ValidateFromAllValid(items: seq<JsonValue>, offset: nat)
    requires forall j :: 0 <= j < |items| ==> DecodeTask(items[j]).Ok?
    ensures ValidateFrom(items, offset).Ok?
    ensures |ValidateFrom(items, offset).value| == |items|
    ensures forall j :: 0 <= j < |items| ==> DecodeTask(items[j]) == Ok(ValidateFrom(items, offset).value[j])
    decreases |items|
  {
    if |items| > 0 {
      ValidateFromAllValid(items[1..], offset + 1);
      assert forall j :: 1 <= j < |items| ==> items[1..][j - 1] == items[j];
    }
  }

  /** The first element that does not decode decides the error, and its index is reported. */
  lemma {:induction false} ValidateFromFirstBad(items: seq<JsonValue>, offset: nat, i: nat)
    requires i < |items|
    requires forall j :: 0 <= j < i ==> DecodeTask(items[j]).Ok?
    requires DecodeTask(items[i]).Err?
    ensures ValidateFrom(items, offset)
         == Err(if items[i].JObj? then ValueError(InvalidTask(offset + i)) else TypeError)
    decreases i
  {
    if i > 0 {
      assert DecodeTask(items[0]).Ok?;
      assert items[1..][i - 1] == items[i];
      ValidateFromFirstBad(items[1..], offset + 1, i - 1);
    }
  }

  /** Validation fails with a ValueError naming the index, or with a TypeError for a non-object element. */
  lemma {:induction false} ValidateFromErrors(items: seq<JsonValue>, offset: nat)
    ensures ValidateFrom(items, offset).Err? ==>
              ValidateFrom(items, offset).error.TypeError? || ValidateFrom(items, offset).error.ValueError?
    decreases |items|
  {
    if |items| > 0 && DecodeTask(items[0]).Ok? {
      ValidateFromErrors(items[1..], offset + 1);
    }
  }

  /** `read_tasks` fails only with FileNotFoundError, a ValueError (a decode error included) or a TypeError. */
  lemma ReadTasksErrors(file: FileState, path: Path)
    ensures var r := ReadTasksSpec(file, path);
            r.Err? ==> r.error == FileNotFoundError(path) || IsValueError(r.error) || r.error.TypeError?
  {
    if file.Decoded? && file.value.JArr? {
      ValidateFromErrors(file.value.items, 0);
    }
  }

  /**
   * `read_tasks` succeeds exactly when the file decodes to a list whose every
   * element is a valid record, and then returns one task per element, in order.
   */
  lemma ReadTasksSucceeds(file: FileState, path: Path)
    ensures ReadTasksSpec(file, path).Ok?
        <==> file.Decoded? && file.value.JArr?
             && forall j :: 0 <= j < |file.value.items| ==> DecodeTask(file.value.items[j]).Ok?
    ensures ReadTasksSpec(file, path).Ok? ==>
              var items := file.value.items;
              var ts := ReadTasksSpec(file, path).value;
              |ts| == |items| && forall j :: 0 <= j < |items| ==> DecodeTask(items[j]) == Ok(ts[j])
  {
    if file.Decoded? && file.value.JArr? {
      var items := file.value.items;
      if forall j :: 0 <= j < |items| ==> DecodeTask(items[j]).Ok? {
        ValidateFromAllValid(items, 0);
      } else {
        var i := FirstInvalid(items);
        ValidateFromFirstBad(items, 0, i);
      }
    }
  }

  /** Index of the first element that does not decode. */
  function FirstInvalid(items: seq<JsonValue>): (i: nat)
    requires exists j :: 0 <= j < |items| && DecodeTask(items[j]).Err?
    ensures i < |items| && DecodeTask(items[i]).Err?
    ensures forall j :: 0 <= j < i ==> DecodeTask(items[j]).Ok?
  {
    if DecodeTask(items[0]).Err? then 0
    else
      assert exists j :: 0 <= j < |items[1..]| && DecodeTask(items[1..][j]).Err? by {
        var j :| 0 <= j < |items| && DecodeTask(items[j]).Err?;
        assert items[1..][j - 1] == items[j];
      }
      var k := FirstInvalid(items[1..]);
      assert forall j :: 1 <= j <= k ==> items[j] == items[1..][j - 1];
      1 + k
  }

  /** When each element decodes to the matching task, validation returns exactly those tasks. */
  lemma {:induction false} ValidateFromDecoded(items: seq<JsonValue>, offset: nat, tasks: seq<Task>)
    requires |tasks| == |items|
    requires forall j :: 0 <= j < |items| ==> DecodeTask(items[j]) == Ok(tasks[j])
    ensures ValidateFrom(items, offset) == Ok(tasks)
    decreases |items|
  {
    if |items| > 0 {
      assert forall j :: 0 <= j < |items| - 1 ==> items[1..][j] == items[j + 1] && tasks[1..][j] == tasks[j + 1];
      ValidateFromDecoded(items[1..], offset + 1, tasks[1..]);
      assert tasks == [tasks[0]] + tasks[1..];
    }
  }

  /**
   * `read_tasks` as the source writes it: a loop that appends each decoded
   * record and raises at the first one that fails.
   */
  method ReadTasks(file: FileState, path: Path) returns (r: Result<seq<Task>, Exc>)
    ensures r == ReadTasksSpec(file, path)
  {
    if file.Missing? {
      return Err(FileNotFoundError(path));
    }
    if file.Undecodable? {
      return Err(JSONDecodeError);
    }
    var data := file.value;
    if !data.JArr? {
      return Err(ValueError(NotAList));
    }
    r := DecodeAll(data.items);
  }

  /** The `for i, item in enumerate(data)` loop of `read_tasks`. */
  method DecodeAll(items: seq<JsonValue>) returns (r: Result<seq<Task>, Exc>)
    ensures r == ValidateFrom(items, 0)
  {
    var tasks: seq<Task> := [];
    var i := 0;
    while i < |items|
      invariant 0 <= i <= |items|
      invariant |tasks| == i
      invariant forall j :: 0 <= j < i ==> DecodeTask(items[j]) == Ok(tasks[j])
    {
      var d := DecodeTask(items[i]);
      if d.Err? {
        ValidateFromFirstBad(items, 0, i);
        if d.error == ValidationError {
          return Err(ValueError(InvalidTask(i)));
        }
        return Err(d.error);
      }
      ghost var before := tasks;
      tasks := tasks + [d.value];
      assert forall j :: 0 <= j < i ==> tasks[j] == before[j];
      i := i + 1;
    }
    ValidateFromDecoded(items, 0, tasks);
    r := Ok(tasks);
  }

  /** `sum(1 for task in tasks if not task.passes)` */
  function IncompleteCount(tasks: seq<Task>): nat
  {
    if |tasks| == 0 then 0
    else (if tasks[0].passes then 0 else 1) + IncompleteCount(tasks[1..])
  }

  /** `[task for task in tasks if not task.passes]` */
  function Incomplete(tasks: seq<Task>): seq<Task>
  {
    if |tasks| == 0 then []
    else (if tasks[0].passes then [] else [tasks[0]]) + Incomplete(tasks[1..])
  }

  /** The count is the length of the filtered list, and never exceeds the number of tasks. */
  lemma {:induction false} IncompleteCountIsLength(tasks: seq<Task>)
    ensures IncompleteCount(tasks) == |Incomplete(tasks)| <= |tasks|
  {
    if |tasks| > 0 {
      IncompleteCountIsLength(tasks[1..]);
    }
  }

  /** The count is zero exactly when every task passes. */
  lemma {:induction false} NoIncompleteIffAllPass(tasks: seq<Task>)
    ensures IncompleteCount(tasks) == 0 <==> forall j :: 0 <= j < |tasks| ==> tasks[j].passes
  {
    if |tasks| > 0 {
      NoIncompleteIffAllPass(tasks[1..]);
      assert forall j :: 1 <= j < |tasks| ==> tasks[1..][j - 1] == tasks[j];
    }
  }

  /**
   * The filter keeps exactly the tasks with `passes == false`: each of them
   * as often as it occurs, and nothing else.
   */
  lemma {:induction false} IncompleteKeepsExactly(tasks: seq<Task>)
    ensures forall t :: t in Incomplete(tasks) ==> !t.passes
    ensures forall t: Task :: !t.passes ==> multiset(Incomplete(tasks))[t] == multiset(tasks)[t]
  {
    if |tasks| > 0 {
      IncompleteKeepsExactly(tasks[1..]);
      assert tasks == [tasks[0]] + tasks[1..];
    }
  }

  /** The filter preserves order: filtering a concatenation concatenates the filtered parts. */
  lemma {:induction false} IncompleteOfConcat(a: seq<Task>, b: seq<Task>)
    ensures Incomplete(a + b) == Incomplete(a) + Incomplete(b)
  {
    if |a| > 0 {
      assert (a + b)[1..] == a[1..] + b;
      IncompleteOfConcat(a[1..], b);
    } else {
      assert a + b == b;
    }
  }

  /** `TasksFile(path).count_incomplete()`: re-reads the file, then counts. */
  method CountIncomplete(file: FileState, path: Path) returns (r: Result<nat, Exc>)
    ensures r.Err? <==> ReadTasksSpec(file, path).Err?
    ensures r.Err? ==> r.error == ReadTasksSpec(file, path).error
    ensures r.Ok? ==> r.value == IncompleteCount(ReadTasksSpec(file, path).value)
  {
    var tasks := ReadTasks(file, path);
    if tasks.Err? {
      return Err(tasks.error);
    }
    r := Ok(IncompleteCount(tasks.value));
  }

  /** `TasksFile(path).get_incomplete_tasks()`: re-reads the file, then filters. */
  method GetIncompleteTasks(file: FileState, path: Path) returns (r: Result<seq<Task>, Exc>)
    ensures r.Err? <==> ReadTasksSpec(file, path).Err?
    ensures r.Err? ==> r.error == ReadTasksSpec(file, path).error
    ensures r.Ok? ==> r.value == Incomplete(ReadTasksSpec(file, path).value)
  {
    var tasks := ReadTasks(file, path);
    if tasks.Err? {
      return Err(tasks.error);
    }
    r := Ok(Incomplete(tasks.value));
  }
}
