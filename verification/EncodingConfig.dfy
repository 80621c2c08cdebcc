/** The process-wide default encoding and its temporary overrides, used from any number of threads. */
module EncodingConfig {

  /** `multibase.is_encoding_supported`. */
  type Support = string -> bool

  /** An override block about to open: the value it read and the value it will set. */
  datatype Entry = Entry(previous: string, encoding: string)

  /** `saved[t]` are the values that the open override blocks of thread t will put back, innermost last. */
  datatype State = State(default: string, saved: map<nat, seq<string>>, entering: map<nat, Entry>)

  /**
   The points at which threads can interleave. An override block reads the default
   and sets its own in two separate steps; each write is under the lock.
   */
  datatype Action =
    | Set(thread: nat, encoding: string)
    | ReadPrevious(thread: nat, encoding: string)
    | Override(thread: nat)
    | Restore(thread: nat)

  function Saved(s: State, t: nat): seq<string> {
    if t in s.saved then s.saved[t] else []
  }

  /** An unsupported encoding raises and changes nothing; an action that is not possible changes nothing. */
  function Next(supported: Support, s: State, a: Action): State {
    match a
    case Set(_, encoding) => if supported(encoding) then s.(default := encoding) else s
    case ReadPrevious(t, encoding) =>
      if t in s.entering then s else s.(entering := s.entering[t := Entry(s.default, encoding)])
    case Override(t) =>
      if t !in s.entering then s
      else
        var e := s.entering[t];
        var s' := s.(entering := s.entering - {t});
        if supported(e.encoding) then s'.(default := e.encoding, saved := s.saved[t := Saved(s, t) + [e.previous]])
        else s'
    case Restore(t) =>
      var saved := Saved(s, t);
      if saved == [] then s
      else s.(default := saved[|saved| - 1], saved := s.saved[t := saved[..|saved| - 1]])
  }

  function After(supported: Support, s: State, run: seq<Action>): State
    decreases run
  {
    if run == [] then s else After(supported, Next(supported, s, run[0]), run[1..])
  }

  ghost predicate AllSupported(supported: Support, s: State) {
    && supported(s.default)
    && (forall t, i :: t in s.saved && 0 <= i < |s.saved[t]| ==> supported(s.saved[t][i]))
    && (forall t :: t in s.entering ==> supported(s.entering[t].previous))
  }

  lemma NextSupported(supported: Support, s: State, a: Action)
    requires AllSupported(supported, s)
    ensures AllSupported(supported, Next(supported, s, a))
  {
  }

  /** In every interleaving of any threads, the default and every value to be put back stay supported. */
  lemma {:induction false} AlwaysSupported(supported: Support, s: State, run: seq<Action>)
    requires AllSupported(supported, s)
    ensures AllSupported(supported, After(supported, s, run))
    decreases run
  {
    if run != [] {
      NextSupported(supported, s, run[0]);
      AlwaysSupported(supported, Next(supported, s, run[0]), run[1..]);
    }
  }

  // ----- nested overrides -----

  /** Code with override blocks that close in the reverse order of opening, on whatever threads. */
  datatype Code =
    | End
    | SetThen(thread: nat, encoding: string, rest: Code)
    | WithOverride(thread: nat, encoding: string, body: Code, rest: Code)

  /** A block around the steps of its body; an unsupported override raises before the body is entered. */
  function Block(supported: Support, t: nat, encoding: string, body: seq<Action>): seq<Action> {
    [ReadPrevious(t, encoding), Override(t)] + if supported(encoding) then body + [Restore(t)] else []
  }

  /** The steps the code takes. */
  function Steps(supported: Support, c: Code): seq<Action> {
    match c
    case End => []
    case SetThen(t, encoding, rest) => [Set(t, encoding)] + Steps(supported, rest)
    case WithOverride(t, encoding, body, rest) =>
      Block(supported, t, encoding, Steps(supported, body)) + Steps(supported, rest)
  }

  /** The default such code leaves, told without stacks: blocks have no lasting effect. */
  function Outcome(supported: Support, default: string, c: Code): string
    decreases c
  {
    match c
    case End => default
    case SetThen(_, encoding, rest) => Outcome(supported, if supported(encoding) then encoding else default, rest)
    case WithOverride(_, _, _, rest) => Outcome(supported, default, rest)
  }

  lemma {:induction false} AfterConcat(supported: Support, s: State, a: seq<Action>, b: seq<Action>)
    ensures After(supported, s, a + b) == After(supported, After(supported, s, a), b)
    decreases a
  {
    if a == [] {
      assert a + b == b;
    } else {
      assert (a + b)[1..] == a[1..] + b;
      AfterConcat(supported, Next(supported, s, a[0]), a[1..], b);
    }
  }

  /** Two states with the same default and the same values waiting to be put back. */
  ghost predicate Same(s: State, default: string, s0: State) {
    s.default == default && s.entering == s0.entering && forall t :: Saved(s, t) == Saved(s0, t)
  }

  lemma EnterBlock(supported: Support, s: State, t: nat, encoding: string)
    requires t !in s.entering
    ensures var s' := After(supported, s, [ReadPrevious(t, encoding), Override(t)]);
      && s'.entering == s.entering
      && (!supported(encoding) ==> s' == s)
      && (supported(encoding) ==>
            s'.default == encoding && Saved(s', t) == Saved(s, t) + [s.default]
            && forall u :: u != t ==> Saved(s', u) == Saved(s, u))
  {
    var run := [ReadPrevious(t, encoding), Override(t)];
    assert run[1..] == [Override(t)] && run[1..][1..] == [];
    var s1 := Next(supported, s, run[0]);
    assert s1.entering - {t} == s.entering;
    assert After(supported, s, run) == After(supported, s1, [Override(t)]);
    assert After(supported, s1, [Override(t)]) == Next(supported, s1, Override(t));
  }

  /** Leaving a block whose body put everything else back restores what was read at its entry. */
  lemma LeaveBlock(supported: Support, s: State, inside: State, t: nat)
    requires inside.entering == s.entering
    requires Saved(inside, t) == Saved(s, t) + [s.default] && forall u :: u != t ==> Saved(inside, u) == Saved(s, u)
    ensures Same(After(supported, inside, [Restore(t)]), s.default, s)
  {
  }

  /** The code opens a block on a thread that is just entering one. */
  predicate Interrupts(c: Code, s: State)
    decreases c
  {
    match c
    case End => false
    case SetThen(_, _, rest) => Interrupts(rest, s)
    case WithOverride(t, _, body, rest) => t in s.entering || Interrupts(body, s) || Interrupts(rest, s)
  }

  lemma {:induction false} InterruptsSame(c: Code, s: State, s': State)
    requires s'.entering == s.entering
    ensures Interrupts(c, s') <==> Interrupts(c, s)
    decreases c
  {
    match c
    case End =>
    case SetThen(_, _, rest) => InterruptsSame(rest, s, s');
    case WithOverride(_, _, body, rest) =>
      InterruptsSame(body, s, s');
      InterruptsSame(rest, s, s');
  }

  /**
   Whatever is nested, however deep and on whatever threads, nested code leaves
   the default that the stackless reading says, and every thread's saved values as
   they were.
   */
  lemma {:induction false} NestedOverridesRestore(supported: Support, s: State, c: Code)
    requires !Interrupts(c, s)
    ensures Same(After(supported, s, Steps(supported, c)), Outcome(supported, s.default, c), s)
    decreases c, 0
  {
    match c
    case End =>
    case SetThen(t, encoding, rest) =>
      AfterConcat(supported, s, [Set(t, encoding)], Steps(supported, rest));
      var s1 := Next(supported, s, Set(t, encoding));
      assert [Set(t, encoding)][1..] == [] && After(supported, s, [Set(t, encoding)]) == s1;
      InterruptsSame(rest, s, s1);
      NestedOverridesRestore(supported, s1, rest);
    case WithOverride(t, encoding, body, rest) =>
      NestedBlockRestores(supported, s, t, encoding, body);
      var block := Block(supported, t, encoding, Steps(supported, body));
      AfterConcat(supported, s, block, Steps(supported, rest));
      InterruptsSame(rest, s, After(supported, s, block));
      NestedOverridesRestore(supported, After(supported, s, block), rest);
  }

  lemma {:induction false} NestedBlockRestores(supported: Support, s: State, t: nat, encoding: string, body: Code)
    requires t !in s.entering && !Interrupts(body, s)
    ensures Same(After(supported, s, Block(supported, t, encoding, Steps(supported, body))), s.default, s)
    decreases body, 2
  {
    var enter, inner := [ReadPrevious(t, encoding), Override(t)], Steps(supported, body);
    EnterBlock(supported, s, t, encoding);
    var entered := After(supported, s, enter);
    var block := Block(supported, t, encoding, inner);
    if supported(encoding) {
      assert block == enter + (inner + [Restore(t)]);
      AfterConcat(supported, s, enter, inner + [Restore(t)]);
      AfterConcat(supported, entered, inner, [Restore(t)]);
      BodyRestores(supported, s, entered, t, body);
    } else {
      assert block == enter;
    }
  }

  lemma {:induction false} BodyRestores(supported: Support, s: State, entered: State, t: nat, body: Code)
    requires entered.entering == s.entering && !Interrupts(body, s)
    requires Saved(entered, t) == Saved(s, t) + [s.default] && forall u :: u != t ==> Saved(entered, u) == Saved(s, u)
    ensures Same(After(supported, After(supported, entered, Steps(supported, body)), [Restore(t)]), s.default, s)
    decreases body, 1
  {
    InterruptsSame(body, s, entered);
    NestedOverridesRestore(supported, entered, body);
    LeaveBlock(supported, s, After(supported, entered, Steps(supported, body)), t);
  }

  // ----- one thread among others -----

  /** The steps of the given thread, in order. */
  function Own(run: seq<Action>, t: nat): seq<Action> {
    if run == [] then []
    else if run[0].thread == t then [run[0]] + Own(run[1..], t)
    else Own(run[1..], t)
  }

  /** What the state holds for a thread: the values its open blocks put back, and the block it is entering. */
  ghost predicate SameFor(t: nat, s: State, s': State) {
    && Saved(s', t) == Saved(s, t)
    && (t in s'.entering <==> t in s.entering)
    && (t in s.entering ==> s'.entering[t] == s.entering[t])
  }

  /** Others' steps leave what is a thread's own alone. */
  lemma {:induction false} OthersLeave(supported: Support, s: State, run: seq<Action>, t: nat)
    requires Own(run, t) == []
    ensures SameFor(t, s, After(supported, s, run))
    decreases run
  {
    if run != [] {
      OthersLeave(supported, Next(supported, s, run[0]), run[1..], t);
    }
  }

  lemma {:induction false} OwnConcat(a: seq<Action>, b: seq<Action>, t: nat)
    ensures Own(a + b, t) == Own(a, t) + Own(b, t)
  {
    if a == [] {
      assert a + b == b;
    } else {
      assert (a + b)[1..] == a[1..] + b;
      OwnConcat(a[1..], b, t);
    }
  }

  lemma OwnSnoc(run: seq<Action>, a: Action, own: seq<Action>)
    requires Own(run + [a], a.thread) == own + [a]
    ensures Own(run, a.thread) == own
  {
    OwnConcat(run, [a], a.thread);
    assert Own([a], a.thread) == [a];
    assert (own + [a])[..|own|] == own;
  }

  /** A run can be cut right after any of the thread's own steps, or before them all. */
  lemma {:induction false} CutOwn(run: seq<Action>, t: nat, a: seq<Action>, b: seq<Action>) returns (k: nat)
    requires Own(run, t) == a + b
    ensures k <= |run| && Own(run[..k], t) == a && Own(run[k..], t) == b
    ensures if a == [] then k == 0 else k > 0 && run[k - 1] == a[|a| - 1]
    decreases run
  {
    if a == [] {
      k := 0;
      assert a + b == b && run[0..] == run;
    } else {
      var rest := if run[0].thread == t then a[1..] else a;
      OwnTail(run, t, a, b);
      k := CutOwn(run[1..], t, rest, b);
      k := k + 1;
      assert run[..k][1..] == run[1..][..k - 1] && run[k..] == run[1..][k - 1..];
    }
  }

  lemma OwnTail(run: seq<Action>, t: nat, a: seq<Action>, b: seq<Action>)
    requires Own(run, t) == a + b && a != []
    ensures run != []
    ensures Own(run[1..], t) == (if run[0].thread == t then a[1..] else a) + b
    ensures run[0].thread == t ==> a[0] == run[0]
  {
    if run[0].thread == t {
      assert Own(run, t)[0] == (a + b)[0] == a[0];
      assert Own(run, t)[1..] == a[1..] + b;
    }
  }

  /** Before the thread's first own step there are only steps of others. */
  lemma {:induction false} FirstOwn(run: seq<Action>, t: nat) returns (k: nat)
    requires Own(run, t) != []
    ensures k < |run| && run[k] == Own(run, t)[0]
    ensures Own(run[..k], t) == [] && Own(run[k..], t) == Own(run, t) && Own(run[k + 1..], t) == Own(run, t)[1..]
  {
    if run[0].thread == t {
      k := 0;
      assert run[0..] == run;
    } else {
      k := FirstOwn(run[1..], t);
      k := k + 1;
      assert run[..k][1..] == run[1..][..k - 1] && run[k..] == run[1..][k - 1..] && run[k + 1..] == run[1..][k..];
    }
  }

  lemma Cut(supported: Support, s: State, run: seq<Action>, k: nat)
    requires k <= |run|
    ensures After(supported, s, run) == After(supported, After(supported, s, run[..k]), run[k..])
  {
    assert run == run[..k] + run[k..];
    AfterConcat(supported, s, run[..k], run[k..]);
  }

  /** Entering a block, from the read on: others may come in between, and the value read is the one saved. */
  lemma EnterOwn(supported: Support, s: State, run: seq<Action>, t: nat, encoding: string) returns (k: nat)
    requires t !in s.entering && run != [] && run[0] == ReadPrevious(t, encoding)
    requires |Own(run, t)| >= 2 && Own(run, t)[1] == Override(t)
    ensures 0 < k <= |run| && Own(run[k..], t) == Own(run, t)[2..]
    ensures var s' := After(supported, s, run[..k]);
      && t !in s'.entering
      && Saved(s', t) == Saved(s, t) + if supported(encoding) then [s.default] else []
  {
    var rest := run[1..];
    var j := FirstOwn(rest, t);
    k := j + 2;
    assert run[k..] == rest[j + 1..];
    assert run[..k] == [run[0]] + rest[..j] + [Override(t)];
    EnterBetween(supported, s, rest[..j], t, encoding);
  }

  lemma EnterBetween(supported: Support, s: State, between: seq<Action>, t: nat, encoding: string)
    requires t !in s.entering && Own(between, t) == []
    ensures var s' := After(supported, s, [ReadPrevious(t, encoding)] + between + [Override(t)]);
      && t !in s'.entering
      && Saved(s', t) == Saved(s, t) + if supported(encoding) then [s.default] else []
  {
    var read := Next(supported, s, ReadPrevious(t, encoding));
    AfterConcat(supported, s, [ReadPrevious(t, encoding)] + between, [Override(t)]);
    AfterConcat(supported, s, [ReadPrevious(t, encoding)], between);
    OthersLeave(supported, read, between, t);
    assert After(supported, s, [ReadPrevious(t, encoding)]) == read;
  }

  /**
   The step that closes a block leaves as default the value that the block's own
   first step read, whatever other threads do in between: between the block's read
   and its write, inside it, and with blocks of their own that overlap it. What the
   thread has saved is then as it was.
   */
  lemma {:induction false} BlockRestores(
      supported: Support, s: State, run: seq<Action>, t: nat, encoding: string, body: Code)
    requires supported(encoding) && t !in s.entering
    requires Own(run, t) == Block(supported, t, encoding, Steps(supported, body))
    requires run[0] == ReadPrevious(t, encoding) && run[|run| - 1] == Restore(t)
    ensures var s' := After(supported, s, run); s'.default == s.default && SameFor(t, s, s')
    decreases body, 1
  {
    var k := EnterOwn(supported, s, run, t, encoding);
    var entered, rest := After(supported, s, run[..k]), run[k..];
    assert Own(run, t)[2..] == Steps(supported, body) + [Restore(t)];
    assert rest != [];
    var inner := rest[..|rest| - 1];
    assert rest == inner + [Restore(t)];
    OwnSnoc(inner, Restore(t), Steps(supported, body));
    OwnCodeRestores(supported, entered, inner, t, body);
    Cut(supported, s, run, k);
    AfterConcat(supported, entered, inner, [Restore(t)]);
  }

  /** However other threads interleave, nested code of a thread puts back whatever it saved. */
  lemma {:induction false} OwnCodeRestores(supported: Support, s: State, run: seq<Action>, t: nat, c: Code)
    requires t !in s.entering && Own(run, t) == Steps(supported, c)
    ensures SameFor(t, s, After(supported, s, run))
    decreases c, 0
  {
    match c
    case End => OthersLeave(supported, s, run, t);
    case SetThen(u, encoding, rest) =>
      var k := CutOwn(run, t, [Set(u, encoding)], Steps(supported, rest));
      Cut(supported, s, run, k);
      SetLeaves(supported, s, run[..k], t, u, encoding);
      OwnCodeRestores(supported, After(supported, s, run[..k]), run[k..], t, rest);
    case WithOverride(u, encoding, body, rest) =>
      var block := Block(supported, u, encoding, Steps(supported, body));
      var k := CutOwn(run, t, block, Steps(supported, rest));
      Cut(supported, s, run, k);
      OwnThread(run[..k], t);
      assert block[0].thread == t;
      var j := FirstOwn(run[..k], t);
      var first := After(supported, s, run[..k][..j]);
      OthersLeave(supported, s, run[..k][..j], t);
      Cut(supported, s, run[..k], j);
      OwnBlockRestores(supported, first, run[..k][j..], t, encoding, body);
      OwnCodeRestores(supported, After(supported, s, run[..k]), run[k..], t, rest);
  }

  lemma {:induction false} OwnBlockRestores(
      supported: Support, s: State, run: seq<Action>, t: nat, encoding: string, body: Code)
    requires t !in s.entering && Own(run, t) == Block(supported, t, encoding, Steps(supported, body))
    requires run[0] == ReadPrevious(t, encoding) && run[|run| - 1] == Own(run, t)[|Own(run, t)| - 1]
    ensures SameFor(t, s, After(supported, s, run))
    decreases body, 2
  {
    if supported(encoding) {
      BlockRestores(supported, s, run, t, encoding, body);
    } else {
      var k := EnterOwn(supported, s, run, t, encoding);
      Cut(supported, s, run, k);
      OthersLeave(supported, After(supported, s, run[..k]), run[k..], t);
    }
  }

  lemma SetLeaves(supported: Support, s: State, run: seq<Action>, t: nat, u: nat, encoding: string)
    requires run != [] && Own(run, t) == [Set(u, encoding)] && run[|run| - 1] == Set(u, encoding)
    ensures SameFor(t, s, After(supported, s, run))
  {
    var init := run[..|run| - 1];
    assert run == init + [Set(u, encoding)];
    OwnThread(run, t);
    assert Own(run, t)[0].thread == t;
    OwnConcat(init, [Set(u, encoding)], t);
    OthersLeave(supported, s, init, t);
    AfterConcat(supported, s, init, [Set(u, encoding)]);
  }

  lemma {:induction false} OwnThread(run: seq<Action>, t: nat)
    ensures forall i :: 0 <= i < |Own(run, t)| ==> Own(run, t)[i].thread == t
  {
    if run != [] {
      OwnThread(run[1..], t);
    }
  }

  /**
   Blocks of two threads that overlap without nesting leave the first thread's
   override in place for good: the default comes back exactly if that override
   changed nothing.
   */
  lemma OverlapLeaks(supported: Support, s: State, t: nat, u: nat, first: string, second: string)
    requires s.entering == map[] && t != u && supported(first) && supported(second)
    ensures
      var enterFirst, enterSecond := [ReadPrevious(t, first), Override(t)], [ReadPrevious(u, second), Override(u)];
      var s' := After(supported, s, enterFirst + (enterSecond + [Restore(t), Restore(u)]));
      && s'.default == first
      && (s'.default == s.default <==> first == s.default)
  {
    var enterFirst, enterSecond := [ReadPrevious(t, first), Override(t)], [ReadPrevious(u, second), Override(u)];
    var exits := [Restore(t), Restore(u)];
    EnterBlock(supported, s, t, first);
    var s1 := After(supported, s, enterFirst);
    EnterBlock(supported, s1, u, second);
    var s2 := After(supported, s1, enterSecond);
    AfterConcat(supported, s, enterFirst, enterSecond + exits);
    AfterConcat(supported, s1, enterSecond, exits);
    assert exits[1..] == [Restore(u)] && exits[1..][1..] == [];
    var s3 := Next(supported, s2, Restore(t));
    assert After(supported, s2, exits) == After(supported, s3, [Restore(u)]);
    assert After(supported, s3, [Restore(u)]) == Next(supported, s3, Restore(u));
    assert Saved(s3, u) == Saved(s1, u) + [first];
  }

  // ----- the module-level variable -----

  /** The module's variable, with the local `previous` of every override block that is open or opening. */
  class Encodings {
    const supported: Support
    var default: string
    var saved: map<nat, seq<string>>
    var entering: map<nat, Entry>

    ghost function View(): State
      reads this
    {
      State(default, saved, entering)
    }

    constructor (supported: Support)
      requires supported("base58btc")
      ensures this.supported == supported
      ensures View() == State("base58btc", map[], map[]) && AllSupported(supported, View())
    {
      this.supported := supported;
      default, saved, entering := "base58btc", map[], map[];
    }

    /** False where the source raises. */
    method SetDefaultEncoding(ghost t: nat, encoding: string) returns (ok: bool)
      modifies this`default
      ensures View() == Next(supported, old(View()), Set(t, encoding))
      ensures ok <==> supported(encoding)
    {
      if !supported(encoding) {
        return false;
      }
      default := encoding;
      return true;
    }

    /** The read before the override, a step of its own: another thread may set the default in between. */
    method ReadPreviousEncoding(t: nat, encoding: string)
      requires t !in entering
      modifies this`entering
      ensures View() == Next(supported, old(View()), ReadPrevious(t, encoding))
    {
      entering := entering[t := Entry(default, encoding)];
    }

    /** Opens the block; false where the source raises and the block is not entered. */
    method EnterOverride(t: nat) returns (ok: bool)
      requires t in entering
      modifies this
      ensures View() == Next(supported, old(View()), Override(t))
      ensures ok <==> supported(old(entering)[t].encoding)
    {
      var e := entering[t];
      entering := entering - {t};
      ok := SetDefaultEncoding(t, e.encoding);
      if ok {
        saved := saved[t := (if t in saved then saved[t] else []) + [e.previous]];
      }
    }

    /** The `finally` part of the innermost open block of the thread. */
    method LeaveOverride(t: nat)
      requires t in saved && saved[t] != []
      modifies this`default, this`saved
      ensures View() == Next(supported, old(View()), Restore(t))
    {
      var previous := saved[t][|saved[t]| - 1];
      saved := saved[t := saved[t][..|saved[t]| - 1]];
      default := previous;
    }
  }
}
