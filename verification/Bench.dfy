/** The work list of a cook. */
module Bench {
  // A cook is a list of small steps over shared state: compile a predicate and append its row, or intern a name.

  import opened Prelude
  import opened Pred
  import opened Compile
  import opened Rites
  import opened Pipeline

  /** The intern tables and the program table so far. */
  datatype Bench = Bench(tables: Tables, preds: seq<Program>)

  datatype Todo =
    | CompilePred(p: Pred)
    | NameResource(n: Name)
    | NameFact(n: Name)
    | NameAffordance(n: Name)
    | NameSlot(s: Slot)

  type Done = Result<Bench, CookError>

  function WithTables(b: Bench, s: Step): Done {
    match s
    case Ok(t) => Ok(b.(tables := t))
    case Err(e) => Err(e)
  }

  function Do(todo: Todo, b: Bench): Done {
    match todo
    case CompilePred(p) =>
      (match Compiled(p, b.tables)
       case Err(e) => Err(e)
       case Ok((prog, u)) => if |b.preds| > U16_MAX then Err(TableFull) else Ok(Bench(u, b.preds + [prog])))
    case NameResource(n) => WithTables(b, CookResource(b.tables, n))
    case NameFact(n) => WithTables(b, CookFact(b.tables, n))
    case NameAffordance(n) => WithTables(b, CookAffordance(b.tables, n))
    case NameSlot(s) => WithTables(b, CookSlot(b.tables, s))
  }

  function DoAll(todos: seq<Todo>, b: Bench): Done {
    if todos == [] then Ok(b)
    else
      match Do(todos[0], b)
      case Err(e) => Err(e)
      case Ok(next) => DoAll(todos[1..], next)
  }

  lemma {:induction false} DoConcat(x: seq<Todo>, y: seq<Todo>, b: Bench)
    ensures DoAll(x + y, b) == (match DoAll(x, b) case Ok(next) => DoAll(y, next) case Err(e) => Err(e))
  {
    hide Do;
    if x == [] {
      assert x + y == y;
    } else {
      assert (x + y)[0] == x[0] && (x + y)[1..] == x[1..] + y;
      if Do(x[0], b).Ok? {
        DoConcat(x[1..], y, Do(x[0], b).value);
      }
    }
  }

  /** Steps only add. */
  lemma DoGrows(todo: Todo, b: Bench)
    requires Do(todo, b).Ok?
    ensures Grows(b.tables, Do(todo, b).value.tables) && b.preds <= Do(todo, b).value.preds
  {
    if todo.CompilePred? {
      var (prog, u) := Compiled(todo.p, b.tables).value;
      CookedNow(todo.p, b.tables, prog, u);
      hide Compiled, Grows;
    } else if todo.NameSlot? {
      SlotStep(b.tables, todo.s);
    }
  }

  lemma {:induction false} DoAllGrows(todos: seq<Todo>, b: Bench)
    requires DoAll(todos, b).Ok?
    ensures Grows(b.tables, DoAll(todos, b).value.tables) && b.preds <= DoAll(todos, b).value.preds
  {
    hide Do, Grows;
    if todos == [] {
      GrowsRefl(b.tables);
    } else {
      var next := Do(todos[0], b).value;
      DoGrows(todos[0], b);
      DoAllGrows(todos[1..], next);
      GrowsTrans(b.tables, next.tables, DoAll(todos, b).value.tables);
    }
  }

  // ---------------------------------------------------------------------------------------------
  // What a rite asks for.

  /** The predicate of an op is compiled, the names it writes by are interned. */
  function OpTodos(op: RiteOp): seq<Todo> {
    if HasPred(op) then [CompilePred(op.pred)]
    else if op.Spend? || op.Setq? then [NameResource(op.res)]
    else if op.Spawn? then [NameFact(op.template)]
    else []
  }

  /** The nodes in order, whether control reaches them or not. */
  function RiteTodos(instrs: seq<Instr>): seq<Todo> {
    if instrs == [] then [] else RiteTodos(instrs[..|instrs| - 1]) + OpTodos(instrs[|instrs| - 1].op)
  }

  lemma RiteTodosNext(instrs: seq<Instr>, i: nat)
    requires i < |instrs|
    ensures RiteTodos(instrs[..i + 1]) == RiteTodos(instrs[..i]) + OpTodos(instrs[i].op)
  {
    assert instrs[..i + 1][..i] == instrs[..i];
  }
}
