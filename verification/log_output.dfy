/** Output strategies for the rendered timings: a multi-string output writes one log
    line per collected message, a one-string output buffers every message and writes
    them as a single line when dumped. */
module LogOutput {
  import opened Logging

  /** The two output prototypes; `get()` on either gives a fresh output of that kind. */
  datatype Prototype = MultipleString | OneString

  /** What an output holds: its kind, the level and context it was made with, and
      the text buffered so far (always empty for a multi-string output). */
  datatype OutputView = OutputView(kind: Prototype, level: Level, context: string, buffer: string)

  /** The prefix a multi-string output puts in front of each message. */
  function ContextPrefix(context: string): string
  {
    "Context : " + context + " ; "
  }

  /** A one-string output's buffer after collecting `message`. */
  function Collected(v: OutputView, message: string): OutputView
  {
    if v.kind.OneString? then v.(buffer := v.buffer + message + "; ") else v
  }

  /** The lines an output writes when it collects `message`. */
  function CollectEmits(v: OutputView, message: string): seq<LogLine>
  {
    if v.kind.MultipleString? then [LogLine(v.level, ContextPrefix(v.context) + message)] else []
  }

  /** The lines an output writes when it is dumped. */
  function DumpEmits(v: OutputView): seq<LogLine>
  {
    if v.kind.OneString? then [LogLine(v.level, v.buffer)] else []
  }

  /** Every output after collecting `message`, in array order. */
  function CollectAll(vs: seq<OutputView>, message: string): seq<OutputView>
  {
    seq(|vs|, i requires 0 <= i < |vs| => Collected(vs[i], message))
  }

  /** The lines written by collecting `message` into every output, in array order. */
  function CollectAllEmits(vs: seq<OutputView>, message: string): seq<LogLine>
  {
    if vs == [] then [] else CollectAllEmits(vs[..|vs| - 1], message) + CollectEmits(vs[|vs| - 1], message)
  }

  /** The lines written by dumping every output, in array order. */
  function DumpAllEmits(vs: seq<OutputView>): seq<LogLine>
  {
    if vs == [] then [] else DumpAllEmits(vs[..|vs| - 1]) + DumpEmits(vs[|vs| - 1])
  }

  /** The outputs after collecting each of `messages` in turn. */
  function CollectMany(vs: seq<OutputView>, messages: seq<string>): seq<OutputView>
  {
    if messages == [] then vs
    else CollectAll(CollectMany(vs, messages[..|messages| - 1]), messages[|messages| - 1])
  }

  /** The lines written while collecting each of `messages` in turn. */
  function CollectManyEmits(vs: seq<OutputView>, messages: seq<string>): seq<LogLine>
  {
    if messages == [] then []
    else CollectManyEmits(vs, messages[..|messages| - 1])
         + CollectAllEmits(CollectMany(vs, messages[..|messages| - 1]), messages[|messages| - 1])
  }

  /** The outputs `make` produces: one per prototype, sharing level and context,
      with empty buffers. */
  function Fresh(prototypes: seq<Prototype>, level: Level, context: string): seq<OutputView>
  {
    seq(|prototypes|, i requires 0 <= i < |prototypes| => OutputView(prototypes[i], level, context, ""))
  }

  /** One more message collected, stated on prefixes of the message list. */
  lemma CollectManyStep(vs: seq<OutputView>, messages: seq<string>, n: nat)
    requires n < |messages|
    ensures CollectMany(vs, messages[..n + 1]) == CollectAll(CollectMany(vs, messages[..n]), messages[n])
    ensures CollectManyEmits(vs, messages[..n + 1])
         == CollectManyEmits(vs, messages[..n]) + CollectAllEmits(CollectMany(vs, messages[..n]), messages[n])
  {
    assert messages[..n + 1][..n] == messages[..n];
  }

  /** Everything written by making outputs for `prototypes`, collecting `messages`
      into all of them in order and then dumping them. */
  function Emitted(prototypes: seq<Prototype>, level: Level, context: string, messages: seq<string>): seq<LogLine>
  {
    var outs := Fresh(prototypes, level, context);
    CollectManyEmits(outs, messages) + DumpAllEmits(CollectMany(outs, messages))
  }

  /** Lines appended to `base` by collecting into fresh outputs and then dumping them
      make up `base` followed by what `Emitted` describes. */
  lemma EmittedAfter(prototypes: seq<Prototype>, level: Level, context: string, messages: seq<string>,
                     base: seq<LogLine>, collected: seq<LogLine>, lines: seq<LogLine>)
    requires collected == base + CollectManyEmits(Fresh(prototypes, level, context), messages)
    requires lines == collected + DumpAllEmits(CollectMany(Fresh(prototypes, level, context), messages))
    ensures lines == base + Emitted(prototypes, level, context, messages)
  {
  }

  /** Each message followed by the one-string separator, concatenated in order. */
  function Joined(messages: seq<string>): string
  {
    if messages == [] then "" else Joined(messages[..|messages| - 1]) + messages[|messages| - 1] + "; "
  }

  /** The number of prototypes of a given kind. */
  function CountKind(prototypes: seq<Prototype>, kind: Prototype): nat
  {
    if prototypes == [] then 0
    else CountKind(prototypes[..|prototypes| - 1], kind) + (if prototypes[|prototypes| - 1] == kind then 1 else 0)
  }

  predicate SameLevel(lines: seq<LogLine>, level: Level)
  {
    forall k :: 0 <= k < |lines| ==> lines[k].level == level
  }

  // ---------------------------------------------------------------------------
  // Properties of the output strategies

  lemma {:induction false} CollectManyKeepsKinds(vs: seq<OutputView>, messages: seq<string>)
    ensures |CollectMany(vs, messages)| == |vs|
    ensures forall i :: 0 <= i < |vs| ==>
      var w := CollectMany(vs, messages)[i];
      w.kind == vs[i].kind && w.level == vs[i].level && w.context == vs[i].context
    decreases |messages|
  {
    if messages != [] {
      CollectManyKeepsKinds(vs, messages[..|messages| - 1]);
    }
  }

  lemma {:induction false} CollectAllEmitsLevel(vs: seq<OutputView>, message: string, level: Level)
    requires forall i :: 0 <= i < |vs| ==> vs[i].level == level
    ensures SameLevel(CollectAllEmits(vs, message), level)
    decreases |vs|
  {
    if vs != [] {
      CollectAllEmitsLevel(vs[..|vs| - 1], message, level);
    }
  }

  lemma {:induction false} DumpAllEmitsLevel(vs: seq<OutputView>, level: Level)
    requires forall i :: 0 <= i < |vs| ==> vs[i].level == level
    ensures SameLevel(DumpAllEmits(vs), level)
    decreases |vs|
  {
    if vs != [] {
      DumpAllEmitsLevel(vs[..|vs| - 1], level);
    }
  }

  lemma {:induction false} CollectManyEmitsLevel(vs: seq<OutputView>, messages: seq<string>, level: Level)
    requires forall i :: 0 <= i < |vs| ==> vs[i].level == level
    ensures SameLevel(CollectManyEmits(vs, messages), level)
    decreases |messages|
  {
    if messages != [] {
      var init := messages[..|messages| - 1];
      CollectManyEmitsLevel(vs, init, level);
      CollectManyKeepsKinds(vs, init);
      CollectAllEmitsLevel(CollectMany(vs, init), messages[|messages| - 1], level);
    }
  }

  /** Every line the outputs write is at the level they were made with. */
  lemma EmittedLevel(prototypes: seq<Prototype>, level: Level, context: string, messages: seq<string>)
    ensures SameLevel(Emitted(prototypes, level, context, messages), level)
  {
    var outs := Fresh(prototypes, level, context);
    CollectManyEmitsLevel(outs, messages, level);
    CollectManyKeepsKinds(outs, messages);
    DumpAllEmitsLevel(CollectMany(outs, messages), level);
  }

  /** With the single default prototype, each message becomes exactly one line, in
      collection order, carrying the context prefix; the dump adds nothing. */
  lemma EmittedMultipleString(level: Level, context: string, messages: seq<string>)
    ensures var lines := Emitted([MultipleString], level, context, messages);
      && |lines| == |messages|
      && forall i :: 0 <= i < |messages| ==> lines[i] == LogLine(level, ContextPrefix(context) + messages[i])
  {
    var v := OutputView(MultipleString, level, context, "");
    assert Fresh([MultipleString], level, context) == [v];
    MultipleStringUnchanged(v, messages);
    MultipleStringEmits(v, messages);
    assert DumpAllEmits([v]) == DumpAllEmits([v][..0]) + DumpEmits(v);
  }

  lemma {:induction false} MultipleStringUnchanged(v: OutputView, messages: seq<string>)
    requires v.kind.MultipleString?
    ensures CollectMany([v], messages) == [v]
    decreases |messages|
  {
    if messages != [] {
      MultipleStringUnchanged(v, messages[..|messages| - 1]);
      CollectAllSingle(v, messages[|messages| - 1]);
    }
  }

  lemma {:induction false} MultipleStringEmits(v: OutputView, messages: seq<string>)
    requires v.kind.MultipleString?
    ensures CollectManyEmits([v], messages)
         == seq(|messages|, i requires 0 <= i < |messages| => LogLine(v.level, ContextPrefix(v.context) + messages[i]))
    decreases |messages|
  {
    if messages != [] {
      var init, last := messages[..|messages| - 1], messages[|messages| - 1];
      MultipleStringEmits(v, init);
      MultipleStringUnchanged(v, init);
      CollectAllEmitsSingle(v, last);
      var line := LogLine(v.level, ContextPrefix(v.context) + last);
      assert CollectManyEmits([v], messages) == CollectManyEmits([v], init) + [line];
    }
  }

  /** With the single one-string prototype, nothing is written while collecting and
      the dump writes exactly one line: every message, in order, each followed by "; ". */
  lemma EmittedOneString(level: Level, context: string, messages: seq<string>)
    ensures Emitted([OneString], level, context, messages) == [LogLine(level, Joined(messages))]
  {
    var v := OutputView(OneString, level, context, "");
    assert Fresh([OneString], level, context) == [v];
    OneStringBuffers(v, messages);
    OneStringSilent(v, messages);
    var w := v.(buffer := Joined(messages));
    assert v.buffer + Joined(messages) == Joined(messages);
    assert CollectMany([v], messages) == [w];
    assert DumpAllEmits([w]) == DumpAllEmits([w][..0]) + DumpEmits(w);
  }

  /** `EmittedMultipleString` for a first message followed by `rest`. */
  lemma EmittedMultipleStringCons(level: Level, context: string, first: string, rest: seq<string>)
    ensures var lines := Emitted([MultipleString], level, context, [first] + rest);
      && |lines| == |rest| + 1
      && lines[0] == LogLine(level, ContextPrefix(context) + first)
      && forall i :: 0 <= i < |rest| ==> lines[i + 1] == LogLine(level, ContextPrefix(context) + rest[i])
  {
    var messages := [first] + rest;
    EmittedMultipleString(level, context, messages);
    forall i | 0 <= i < |rest|
      ensures messages[i + 1] == rest[i]
    {
    }
  }

  lemma {:induction false} JoinedCons(first: string, rest: seq<string>)
    ensures Joined([first] + rest) == first + "; " + Joined(rest)
    decreases |rest|
  {
    if rest != [] {
      var all := [first] + rest;
      assert all[..|all| - 1] == [first] + rest[..|rest| - 1];
      JoinedCons(first, rest[..|rest| - 1]);
    } else {
      assert [first] + rest == [first];
      assert Joined([first]) == Joined([]) + first + "; ";
    }
  }

  /** `EmittedOneString` for a first message followed by `rest`. */
  lemma EmittedOneStringCons(level: Level, context: string, first: string, rest: seq<string>)
    ensures Emitted([OneString], level, context, [first] + rest) == [LogLine(level, first + "; " + Joined(rest))]
  {
    EmittedOneString(level, context, [first] + rest);
    JoinedCons(first, rest);
  }

  lemma CollectAllSingle(v: OutputView, message: string)
    ensures CollectAll([v], message) == [Collected(v, message)]
  {
    assert CollectAll([v], message)[0] == Collected(v, message);
  }

  lemma CollectAllEmitsSingle(v: OutputView, message: string)
    ensures CollectAllEmits([v], message) == CollectEmits(v, message)
  {
    assert [v][..0] == [];
  }

  lemma {:induction false} OneStringBuffers(v: OutputView, messages: seq<string>)
    requires v.kind.OneString?
    ensures CollectMany([v], messages) == [v.(buffer := v.buffer + Joined(messages))]
    decreases |messages|
  {
    if messages != [] {
      var init, last := messages[..|messages| - 1], messages[|messages| - 1];
      OneStringBuffers(v, init);
      var w := v.(buffer := v.buffer + Joined(init));
      CollectAllSingle(w, last);
      assert v.buffer + Joined(messages) == w.buffer + last + "; ";
    } else {
      assert v.buffer + Joined(messages) == v.buffer;
    }
  }

  lemma {:induction false} OneStringSilent(v: OutputView, messages: seq<string>)
    requires v.kind.OneString?
    ensures CollectManyEmits([v], messages) == []
    decreases |messages|
  {
    if messages != [] {
      var init := messages[..|messages| - 1];
      OneStringSilent(v, init);
      OneStringBuffers(v, init);
      CollectAllEmitsSingle(v.(buffer := v.buffer + Joined(init)), messages[|messages| - 1]);
    }
  }

  lemma {:induction false} CollectAllEmitsCount(vs: seq<OutputView>, message: string)
    ensures |CollectAllEmits(vs, message)| == CountKind(Kinds(vs), MultipleString)
    decreases |vs|
  {
    if vs != [] {
      CollectAllEmitsCount(vs[..|vs| - 1], message);
      assert Kinds(vs)[..|vs| - 1] == Kinds(vs[..|vs| - 1]);
    }
  }

  lemma {:induction false} DumpAllEmitsCount(vs: seq<OutputView>)
    ensures |DumpAllEmits(vs)| == CountKind(Kinds(vs), OneString)
    decreases |vs|
  {
    if vs != [] {
      DumpAllEmitsCount(vs[..|vs| - 1]);
      assert Kinds(vs)[..|vs| - 1] == Kinds(vs[..|vs| - 1]);
    }
  }

  lemma {:induction false} CollectManyEmitsCount(vs: seq<OutputView>, messages: seq<string>)
    ensures |CollectManyEmits(vs, messages)| == |messages| * CountKind(Kinds(vs), MultipleString)
    decreases |messages|
  {
    if messages != [] {
      var init := messages[..|messages| - 1];
      CollectManyEmitsCount(vs, init);
      SameKinds(vs, init);
      CollectAllEmitsCount(CollectMany(vs, init), messages[|messages| - 1]);
      MulSucc(|init|, CountKind(Kinds(vs), MultipleString));
    }
  }

  lemma SameKinds(vs: seq<OutputView>, messages: seq<string>)
    ensures Kinds(CollectMany(vs, messages)) == Kinds(vs)
  {
    CollectManyKeepsKinds(vs, messages);
  }

  lemma MulSucc(n: nat, c: nat)
    ensures (n + 1) * c == n * c + c
  {
  }

  /** The kinds of a sequence of outputs. */
  function Kinds(vs: seq<OutputView>): seq<Prototype>
  {
    seq(|vs|, i requires 0 <= i < |vs| => vs[i].kind)
  }

  /** Each multi-string output writes one line per message, each one-string output
      one line in all. */
  lemma EmittedCount(prototypes: seq<Prototype>, level: Level, context: string, messages: seq<string>)
    ensures |Emitted(prototypes, level, context, messages)|
         == |messages| * CountKind(prototypes, MultipleString) + CountKind(prototypes, OneString)
  {
    var outs := Fresh(prototypes, level, context);
    assert Kinds(outs) == prototypes;
    CollectManyEmitsCount(outs, messages);
    SameKinds(outs, messages);
    DumpAllEmitsCount(CollectMany(outs, messages));
  }

  /** The lines a round over `n` messages writes, counted prototype by prototype:
      `n` for each multi-string output and one for each one-string output. */
  function LinesFor(prototypes: seq<Prototype>, n: nat): nat
  {
    if prototypes == [] then 0
    else LinesFor(prototypes[..|prototypes| - 1], n) + (if prototypes[|prototypes| - 1] == MultipleString then n else 1)
  }

  lemma {:induction false} LinesForCount(prototypes: seq<Prototype>, n: nat)
    ensures LinesFor(prototypes, n) == n * CountKind(prototypes, MultipleString) + CountKind(prototypes, OneString)
    decreases |prototypes|
  {
    if prototypes != [] {
      LinesForCount(prototypes[..|prototypes| - 1], n);
    }
  }

  /** The count of `EmittedCount`, prototype by prototype. */
  lemma EmittedLines(prototypes: seq<Prototype>, level: Level, context: string, first: string, rest: seq<string>, n: nat)
    requires n == |rest| + 1
    ensures |Emitted(prototypes, level, context, [first] + rest)| == LinesFor(prototypes, n)
  {
    EmittedCount(prototypes, level, context, [first] + rest);
    LinesForCount(prototypes, n);
  }

  // ---------------------------------------------------------------------------
  // The output objects

  /** One output, of either kind. The Java subclasses `OneStringOutput` and
      `MultipleStringOutput` are told apart by `kind`. */
  class Output {
    const kind: Prototype
    const logger: Logger
    const level: Level
    const context: string
    var buffer: string

    function View(): OutputView
      reads this
    {
      OutputView(kind, level, context, buffer)
    }

    /** `prototype.get()` followed by the three setters that `make` calls. */
    constructor (kind: Prototype, logger: Logger, level: Level, context: string)
      ensures View() == OutputView(kind, level, context, "")
      ensures this.logger == logger
    {
      this.kind := kind;
      this.logger := logger;
      this.level := level;
      this.context := context;
      buffer := "";
    }

    /** A one-string output appends the message and "; " to its buffer and writes
        nothing; a multi-string output writes one line with the context prefix. */
    method Collect(message: string)
      modifies this, logger
      ensures View() == Collected(old(View()), message)
      ensures logger.lines == old(logger.lines) + CollectEmits(old(View()), message)
    {
      if kind.OneString? {
        buffer := buffer + message + "; ";
      } else {
        logger.Log(level, ContextPrefix(context) + message);
      }
    }

    /** A one-string output writes its whole buffer as one line; for a multi-string
        output this is the inherited no-op. */
    method Dump()
      modifies logger
      ensures logger.lines == old(logger.lines) + DumpEmits(View())
    {
      if kind.OneString? {
        logger.Log(level, buffer);
      }
    }
  }

  predicate Distinct(outs: seq<Output>)
  {
    forall i, j :: 0 <= i < j < |outs| ==> outs[i] != outs[j]
  }

  ghost function Views(outs: seq<Output>): seq<OutputView>
    reads set i | 0 <= i < |outs| :: outs[i]
  {
    seq(|outs|, i requires 0 <= i < |outs| reads outs => outs[i].View())
  }

  /** `LogOutput.make`: one fresh output per prototype, in prototype order, each
      bound to the given logger, level and context. */
  method Make(logger: Logger, level: Level, context: string, prototypes: seq<Prototype>)
    returns (outs: array<Output>)
    ensures fresh(outs) && outs.Length == |prototypes|
    ensures forall i :: 0 <= i < outs.Length ==> fresh(outs[i]) && outs[i].logger == logger
    ensures Distinct(outs[..])
    ensures Views(outs[..]) == Fresh(prototypes, level, context)
  {
    var made: seq<Output> := [];
    for i := 0 to |prototypes|
      invariant |made| == i
      invariant forall j :: 0 <= j < i ==> fresh(made[j]) && made[j].logger == logger
      invariant forall j :: 0 <= j < i ==> made[j].View() == OutputView(prototypes[j], level, context, "")
      invariant Distinct(made)
    {
      var out := new Output(prototypes[i], logger, level, context);
      made := made + [out];
    }
    outs := new Output[|prototypes|](i requires 0 <= i < |prototypes| => made[i]);
    assert outs[..] == made;
  }

  /** Static `collect`: passes the message to every output, in array order. */
  method Collect(message: string, outs: array<Output>, ghost sink: Logger)
    requires Distinct(outs[..])
    requires forall i :: 0 <= i < outs.Length ==> outs[i].logger == sink
    modifies set i | 0 <= i < outs.Length :: outs[i]
    modifies sink
    ensures Views(outs[..]) == CollectAll(old(Views(outs[..])), message)
    ensures sink.lines == old(sink.lines) + CollectAllEmits(old(Views(outs[..])), message)
  {
    ghost var before := Views(outs[..]);
    for i := 0 to outs.Length
      invariant forall j :: 0 <= j < i ==> outs[j].View() == Collected(before[j], message)
      invariant forall j :: i <= j < outs.Length ==> outs[j].View() == before[j]
      invariant sink.lines == old(sink.lines) + CollectAllEmits(before[..i], message)
    {
      CollectAt(message, outs, sink, before, old(sink.lines), i);
    }
    assert before[..outs.Length] == before;
  }

  /** One step of the static `collect`: output `i` receives the message and the
      others keep their state. */
  method CollectAt(message: string, outs: array<Output>, ghost sink: Logger, ghost before: seq<OutputView>,
                   ghost base: seq<LogLine>, i: nat)
    requires i < outs.Length == |before|
    requires Distinct(outs[..])
    requires forall j :: 0 <= j < outs.Length ==> outs[j].logger == sink
    requires forall j :: 0 <= j < i ==> outs[j].View() == Collected(before[j], message)
    requires forall j :: i <= j < outs.Length ==> outs[j].View() == before[j]
    requires sink.lines == base + CollectAllEmits(before[..i], message)
    modifies outs[i], sink
    ensures forall j :: 0 <= j < i + 1 ==> outs[j].View() == Collected(before[j], message)
    ensures forall j :: i + 1 <= j < outs.Length ==> outs[j].View() == before[j]
    ensures sink.lines == base + CollectAllEmits(before[..i + 1], message)
  {
    outs[i].Collect(message);
    assert before[..i + 1][..i] == before[..i];
  }

  /** Collects the first of `messages` into every output. */
  method CollectFirst(message: string, outs: array<Output>, ghost sink: Logger,
                      ghost start: seq<OutputView>, ghost messages: seq<string>)
    requires |messages| >= 1 && message == messages[0]
    requires Distinct(outs[..])
    requires forall i :: 0 <= i < outs.Length ==> outs[i].logger == sink
    requires Views(outs[..]) == start
    modifies set i | 0 <= i < outs.Length :: outs[i]
    modifies sink
    ensures Views(outs[..]) == CollectMany(start, messages[..1])
    ensures sink.lines == old(sink.lines) + CollectManyEmits(start, messages[..1])
  {
    assert messages[..0] == [];
    assert sink.lines + CollectManyEmits(start, messages[..0]) == sink.lines;
    CollectNext(message, outs, sink, start, messages, sink.lines, 0);
  }

  /** Collects the `k`-th of `messages` into every output, extending the state reached
      by collecting the first `k` of them by one message. */
  method CollectNext(message: string, outs: array<Output>, ghost sink: Logger,
                     ghost start: seq<OutputView>, ghost messages: seq<string>, ghost base: seq<LogLine>, k: nat)
    requires k < |messages| && message == messages[k]
    requires Distinct(outs[..])
    requires forall i :: 0 <= i < outs.Length ==> outs[i].logger == sink
    requires Views(outs[..]) == CollectMany(start, messages[..k])
    requires sink.lines == base + CollectManyEmits(start, messages[..k])
    modifies set i | 0 <= i < outs.Length :: outs[i]
    modifies sink
    ensures Views(outs[..]) == CollectMany(start, messages[..k + 1])
    ensures sink.lines == base + CollectManyEmits(start, messages[..k + 1])
  {
    CollectManyStep(start, messages, k);
    Collect(message, outs, sink);
  }

  /** Static `dump`: dumps every output, in array order. */
  method Dump(outs: array<Output>, ghost sink: Logger)
    requires forall i :: 0 <= i < outs.Length ==> outs[i].logger == sink
    modifies sink
    ensures sink.lines == old(sink.lines) + DumpAllEmits(Views(outs[..]))
  {
    ghost var views := Views(outs[..]);
    for i := 0 to outs.Length
      invariant Views(outs[..]) == views
      invariant sink.lines == old(sink.lines) + DumpAllEmits(views[..i])
    {
      outs[i].Dump();
      assert views[..i + 1][..i] == views[..i];
    }
    assert views[..outs.Length] == views;
  }
}
