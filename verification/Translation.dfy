/** What the parser's actions build: the mailbox of transfers, as the effect of the actions and
    as read off the lines of the file. */
module Translation {
  import opened Grammar
  import opened Options

  /** A transfer. Numbers are kept as the text that the wrapper converts; `None` marks a field
      that was never set. */
  datatype Transfer = Transfer(
    beginCycle: Option<string>, endCycle: Option<string>, beginTime: Option<string>, endTime: Option<string>,
    id: Option<string>, rw: Option<string>, bstType: Option<string>, trxSize: Option<string>,
    trxPrt: Option<string>, lock: Option<string>, resp: Option<string>, addr: Option<string>,
    data: seq<string>, byten: seq<string>)

  const Blank := Transfer(None, None, None, None, None, None, None, None, None, None, None, None, [], [])

  /** The mailbox once it exists. `global_trx` is always its last transfer. */
  datatype Env = NoMailbox | Mailbox(name: string, sent: seq<Transfer>)

  function Text(kids: seq<Tree>, i: nat): string {
    if i < |kids| && kids[i].Leaf? then kids[i].tok.text else ""
  }

  function OnLast(env: Env, f: Transfer -> Transfer): Env {
    if env.NoMailbox? || env.sent == [] then env
    else env.(sent := env.sent[..|env.sent| - 1] + [f(env.sent[|env.sent| - 1])])
  }

  function Cycles(t: Transfer, kids: seq<Tree>): Transfer {
    t.(beginCycle := Some(Text(kids, 0)), endCycle := Some(Text(kids, 2)),
       beginTime := Some(Text(kids, 4)), endTime := Some(Text(kids, 6)))
  }

  function SetXbus(t: Transfer, kids: seq<Tree>): Transfer {
    Cycles(t, kids).(rw := Some(Text(kids, 8)), addr := Some(Text(kids, 10)))
  }

  function SetApb(t: Transfer, kids: seq<Tree>): Transfer {
    Cycles(t, kids).(id := Some(Text(kids, 8)), rw := Some(Text(kids, 10)), resp := Some(Text(kids, 12)),
                     addr := Some(Text(kids, 14)))
  }

  /** The setter for `lock` writes `id`. */
  function SetAhb(t: Transfer, kids: seq<Tree>): Transfer {
    var t1 := Cycles(t, kids).(id := Some(Text(kids, 8)), rw := Some(Text(kids, 10)),
                               bstType := Some(Text(kids, 12)), trxSize := Some(Text(kids, 14)),
                               trxPrt := Some(Text(kids, 16)));
    t1.(id := Some(Text(kids, 18))).(resp := Some(Text(kids, 20)), addr := Some(Text(kids, 22)))
  }

  function AddBeat(t: Transfer, data: string, byten: seq<string>): Transfer {
    t.(data := t.data + [data], byten := t.byten + byten)
  }

  /** The action of rule `n`. */
  function Act(n: int, kids: seq<Tree>, env: Env): Env {
    match n
    case 13 => Mailbox(Text(kids, 1), [])
    case 14 => if env.NoMailbox? then env else env.(sent := env.sent + [Blank])
    case 19 => OnLast(env, t => AddBeat(t, Text(kids, 0), [Text(kids, 2)]))
    case 20 => OnLast(env, t => AddBeat(t, Text(kids, 1), [Text(kids, 3)]))
    case 21 => OnLast(env, t => AddBeat(t, Text(kids, 0), []))
    case 22 => OnLast(env, t => AddBeat(t, Text(kids, 1), []))
    case 23 => OnLast(env, t => SetXbus(t, kids))
    case 24 => OnLast(env, t => SetApb(t, kids))
    case 25 => OnLast(env, t => SetAhb(t, kids))
    case _ => env
  }

  /** The actions of a whole derivation, in the order in which the parser reduces. */
  function Exec(t: Tree, env: Env): Env
    decreases t, 0
  {
    match t
    case Leaf(_) => env
    case Node(n, kids) => Act(n, kids, ExecAll(kids, env))
  }

  function ExecAll(ts: seq<Tree>, env: Env): Env
    decreases ts, 1
  {
    if ts == [] then env else ExecAll(ts[1..], Exec(ts[0], env))
  }

  // ------------------------------------------------------------------ the file, line by line

  predicate IsReturn(tok: Token) {
    Translate(tok.code) == RETURN
  }

  /** The lines of the file, without their line ends. */
  function Lines(ts: seq<Token>): seq<seq<Token>> {
    if ts == [] then []
    else if IsReturn(ts[0]) then [[]] + Lines(ts[1..])
    else
      var more := Lines(ts[1..]);
      if more == [] then [] else [[ts[0]] + more[0]] + more[1..]
  }

  function Column(line: seq<Token>, i: nat): Option<string> {
    if i < |line| then Some(line[i].text) else None
  }

  /** Every `stride`-th text of the line, from position `i` on. */
  function Every(line: seq<Token>, i: nat, stride: nat): seq<string>
    requires 0 < stride
    decreases |line| - i
  {
    if i < |line| then [line[i].text] + Every(line, i + stride, stride) else []
  }

  predicate IsText(line: seq<Token>, i: nat) {
    i < |line| && Translate(line[i].code) == SIDENTIFIER
  }

  /** The transfer that a body line stands for: fixed columns first, then the beats. The bus is
      told by the kind of the fifth and of the eighth column. On an AHB line the last write to
      `id` is the lock column. */
  function LineTransfer(line: seq<Token>): Transfer {
    var t := Blank.(beginCycle := Column(line, 0), endCycle := Column(line, 2),
                    beginTime := Column(line, 4), endTime := Column(line, 6));
    if IsText(line, 8) then
      t.(rw := Column(line, 8), addr := Column(line, 10), data := Every(line, 12, 5), byten := Every(line, 14, 5))
    else if IsText(line, 14) then
      t.(id := Column(line, 18), rw := Column(line, 10), bstType := Column(line, 12), trxSize := Column(line, 14),
         trxPrt := Column(line, 16), resp := Column(line, 20), addr := Column(line, 22), data := Every(line, 24, 2))
    else
      t.(id := Column(line, 8), rw := Column(line, 10), resp := Column(line, 12), addr := Column(line, 14),
         data := Every(line, 16, 2))
  }

  /** A body line begins with an identifier; header lines and empty lines carry no transfer. */
  function LineTransfers(line: seq<Token>): seq<Transfer> {
    if line != [] && Translate(line[0].code) == TIDENTIFIER then [LineTransfer(line)] else []
  }

  function AllTransfers(lines: seq<seq<Token>>): seq<Transfer> {
    if lines == [] then [] else AllTransfers(lines[..|lines| - 1]) + LineTransfers(lines[|lines| - 1])
  }

  /** The mailbox that a file asks for: named by its first line, one transfer for each body
      line, in order. */
  function FileMailbox(ts: seq<Token>): Env {
    var lines := Lines(ts);
    if lines == [] then NoMailbox
    else Mailbox(if |lines[0]| > 1 then lines[0][1].text else "", AllTransfers(lines[1..]))
  }
}
