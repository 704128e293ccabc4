/**
 The initial process stack that `start` builds before it jumps to an entry point, against a reader
 that follows section 3.4.1 of the System V AMD64 psABI.
 */
module ProcessStacks {
  import opened Options
  import opened Words

  const NULL: Word64 := 0

  /** What a program finds on its initial stack. `auxTag` is the tag of the first entry of its
      auxiliary vector. */
  datatype Startup = Startup(argc: nat, argv: seq<Word64>, envp: seq<Word64>, auxTag: Word64)

  /** Where the first null pointer is, from `i` on, if there is one. */
  function FindNull(words: seq<Word64>, i: nat): (r: Option<nat>)
    requires i <= |words|
    ensures r.Some? ==> i <= r.value < |words| && words[r.value] == NULL
    ensures forall j | i <= j < (if r.Some? then r.value else |words|) :: words[j] != NULL
    decreases |words| - i
  {
    if i == |words| then None else if words[i] == NULL then Some(i) else FindNull(words, i + 1)
  }

  /** The psABI's reading of the words from the stack pointer upward: argc, argc argument pointers, a
      null, environment pointers up to a null, the auxiliary vector. */
  function Read(words: seq<Word64>): Option<Startup> {
    if |words| == 0 then None
    else
      var argc: nat := words[0];
      if |words| < argc + 2 || words[argc + 1] != NULL then None
      else
        var env := FindNull(words, argc + 2);
        if env.None? || env.value + 1 == |words| then None
        else Some(Startup(argc, words[1..argc + 1], words[argc + 2..env.value], words[env.value + 1]))
  }

  /** The environment: what comes before the first null pointer of `envp`. */
  function Environment(envp: seq<Word64>): seq<Word64>
    requires FindNull(envp, 0).Some?
  {
    envp[..FindNull(envp, 0).value]
  }

  /** The words that `start` leaves, from the stack pointer upward. */
  function Layout(argc: Word64, argv: seq<Word64>, env: seq<Word64>): (words: seq<Word64>)
    requires argc <= |argv|
    ensures |words| == argc + |env| + 4
  {
    [argc] + argv[..argc] + [NULL] + env + [NULL, 0]
  }

  lemma FindNullIs(words: seq<Word64>, i: nat, n: nat)
    requires i <= n < |words| && words[n] == NULL && forall j | i <= j < n :: words[j] != NULL
    ensures FindNull(words, i) == Some(n)
  {
  }

  /** Whatever lies above, the program reads back exactly what it was started with, and an empty
      auxiliary vector. */
  lemma ReadsBack(argc: Word64, argv: seq<Word64>, env: seq<Word64>, above: seq<Word64>)
    requires argc <= |argv| && NULL !in env
    ensures Read(Layout(argc, argv, env) + above) == Some(Startup(argc, argv[..argc], env, 0))
  {
    var words := Layout(argc, argv, env) + above;
    var n := argc + 2 + |env|;
    assert words[1..argc + 1] == argv[..argc];
    assert words[argc + 2..n] == env;
    forall j | argc + 2 <= j < n ensures words[j] != NULL {
      assert words[j] == env[j - argc - 2];
    }
    FindNullIs(words, argc + 2, n);
  }

  /** Conversely, any stack that reads as such begins with these words. */
  lemma OnlyThisLayoutReadsBack(words: seq<Word64>, argc: Word64, argv: seq<Word64>, env: seq<Word64>)
    requires argc <= |argv| && Read(words) == Some(Startup(argc, argv[..argc], env, 0))
    ensures Layout(argc, argv, env) <= words && NULL !in env
  {
    var l := Layout(argc, argv, env);
    var n := FindNull(words, argc + 2).value;
    assert words[0] == argc && words[1..argc + 1] == argv[..argc] && words[argc + 2..n] == env;
    forall k | 0 <= k < |l| ensures l[k] == words[k] {
      if 1 <= k <= argc {
        assert words[1..argc + 1][k - 1] == argv[k - 1];
      } else if argc + 2 <= k < n {
        assert words[argc + 2..n][k - argc - 2] == env[k - argc - 2];
      }
    }
  }

  /** The pad that goes first if the words about to be pushed would leave the pointer odd. */
  function Padding(base: Word64, top: nat, words: nat): (pad: seq<Word64>)
    ensures pad == [] || pad == [0]
  {
    if (base + 8 * (top + words)) % 16 != 0 then [0] else []
  }

  /** The pad computed from the words about to be pushed upward makes the pointer that ends up below
      them 16-byte aligned. */
  lemma PaddingAligns(base: Word64, top: nat, words: nat)
    requires base % 8 == 0
    ensures (base + 8 * (top - words - |Padding(base, top, words)|)) % 16 == 0
  {
    var up, pad := base / 8 + top + words, |Padding(base, top, words)|;
    HalfWords(up);
    HalfWords(up - 2 * words - pad);
    assert base == 8 * (base / 8);
    assert (up - 2 * words - pad) % 2 == 0;
  }

  lemma HalfWords(n: int)
    ensures (8 * n) % 16 == 8 * (n % 2)
  {
  }

  /** Memory after `words` have been pushed below `top`. */
  function Pushed(before: seq<Word64>, top: nat, words: seq<Word64>): (after: seq<Word64>)
    requires |words| <= top <= |before|
    ensures |after| == |before|
  {
    before[..top - |words|] + words + before[top..]
  }

  lemma PushedOne(before: seq<Word64>, top: nat, words: seq<Word64>, word: Word64)
    requires |words| < top <= |before|
    ensures Pushed(before, top, words)[top - |words| - 1 := word] == Pushed(before, top, [word] + words)
  {
  }

  lemma PushedTwice(before: seq<Word64>, top: nat, words: seq<Word64>, more: seq<Word64>)
    requires |words| + |more| <= top <= |before|
    ensures Pushed(Pushed(before, top, words), top - |words|, more) == Pushed(before, top, more + words)
  {
  }

  lemma PushedNone(before: seq<Word64>, top: nat)
    requires top <= |before|
    ensures Pushed(before, top, []) == before
  {
  }

  /** `sp--; *sp = word;` after `words` have been pushed below `top`. */
  method Push(stack: array<Word64>, sp: nat, word: Word64, ghost before: seq<Word64>, ghost top: nat, ghost words: seq<Word64>)
      returns (r: nat)
    requires |words| < top <= |before| && sp == top - |words|
    requires stack[..] == Pushed(before, top, words)
    modifies stack
    ensures r == sp - 1 && stack[..] == Pushed(before, top, [word] + words)
  {
    assert |stack[..]| == stack.Length;
    PushedOne(before, top, words, word);
    r := sp - 1;
    stack[r] := word;
    assert stack[..] == old(stack[..])[r := word];
  }

  /** start. The stack is the `stack.Length` words from address `base` on, and the stack pointer
      starts at word `top`. There is room for what is pushed. */
  method Start(stack: array<Word64>, base: Word64, top: nat, argc: Word64, argv: seq<Word64>, envp: seq<Word64>)
      returns (sp: nat)
    requires base % 8 == 0 && top <= stack.Length
    requires argc <= |argv| && FindNull(envp, 0).Some? && top >= argc + |Environment(envp)| + 5
    modifies stack
    ensures sp <= stack.Length && (base + 8 * sp) % 16 == 0
    ensures Read(stack[sp..]) == Some(Startup(argc, argv[..argc], Environment(envp), 0))
    ensures var pad := Padding(base, top, argc + 4 + |Environment(envp)|);
            && top - sp == argc + 4 + |Environment(envp)| + |pad|
            && stack[..] == Pushed(old(stack[..]), top, Layout(argc, argv, Environment(envp)) + pad)
    ensures stack[..sp] == old(stack[..sp]) && stack[top..] == old(stack[top..])
  {
    hide Read, Layout, FindNull, Pushed;
    ghost var before := stack[..];
    var n := CountEnvironment(envp);
    ghost var pad, layout := Padding(base, top, argc + 4 + n), Layout(argc, argv, envp[..n]);
    PushedNone(before, top);
    sp := top;
    if (base + 8 * (sp + argc + 4 + n)) % 16 != 0 {
      sp := Push(stack, sp, 0, before, top, []);
    }
    assert [0] + [] == [0];
    assert stack[..] == Pushed(before, top, pad) && sp == top - |pad|;
    sp := PushAll(stack, sp, argc, argv, envp, n);
    PushedTwice(before, top, pad, layout);
    Around(stack[..], before, top, sp, layout, pad);
    ReadsBack(argc, argv, envp[..n], pad + before[top..]);
    PaddingAligns(base, top, argc + 4 + n);
  }

  /** What lies below, from and above the pushed words. */
  lemma Around(now: seq<Word64>, before: seq<Word64>, top: nat, sp: nat, layout: seq<Word64>, pad: seq<Word64>)
    requires |layout + pad| <= top <= |before| && sp == top - |layout + pad| && now == Pushed(before, top, layout + pad)
    ensures now[..sp] == before[..sp] && now[top..] == before[top..]
    ensures now[sp..] == layout + (pad + before[top..])
  {
    assert now[sp..] == layout + pad + before[top..];
  }

  /** How far the terminating null pointer is. */
  method CountEnvironment(envp: seq<Word64>) returns (n: nat)
    requires FindNull(envp, 0).Some?
    ensures FindNull(envp, 0) == Some(n)
  {
    n := 0;
    while envp[n] != NULL
      invariant n < |envp| && FindNull(envp, 0) == FindNull(envp, n)
      decreases |envp| - n
    {
      n := n + 1;
    }
  }

  /** Everything that is pushed below the pad. */
  method PushAll(stack: array<Word64>, top: nat, argc: Word64, argv: seq<Word64>, envp: seq<Word64>, n: nat)
      returns (sp: nat)
    requires argc <= |argv| && n < |envp| && envp[n] == NULL && argc + n + 4 <= top <= stack.Length
    modifies stack
    ensures sp == top - (argc + n + 4) && stack[..] == Pushed(old(stack[..]), top, Layout(argc, argv, envp[..n]))
  {
    hide Layout, Pushed;
    ghost var before := stack[..];
    PushedNone(before, top);
    sp := Push(stack, top, 0, before, top, []);
    sp := PushPointers(stack, sp, n + 1, envp, before, top, [0] + []);
    assert envp[..n + 1] == envp[..n] + [NULL];
    ghost var tail := envp[..n] + [NULL] + ([0] + []);
    sp := Push(stack, sp, 0, before, top, tail);
    sp := PushPointers(stack, sp, argc, argv, before, top, [NULL] + tail);
    sp := Push(stack, sp, argc, before, top, argv[..argc] + ([NULL] + tail));
    Assemble(argc, argv, envp[..n]);
  }

  lemma Assemble(argc: Word64, argv: seq<Word64>, env: seq<Word64>)
    requires argc <= |argv|
    ensures [argc] + (argv[..argc] + ([NULL] + (env + [NULL] + ([0] + [])))) == Layout(argc, argv, env)
  {
  }

  lemma PrependToSlice(words: seq<Word64>, i: nat, n: nat, above: seq<Word64>)
    requires i < n <= |words|
    ensures [words[i]] + (words[i + 1..n] + above) == words[i..n] + above
  {
    assert words[i..n] == [words[i]] + words[i + 1..n];
  }

  /** The loops over the environment, from its null pointer down, and over the arguments. */
  method PushPointers(stack: array<Word64>, start: nat, n: nat, pointers: seq<Word64>,
                       ghost before: seq<Word64>, ghost top: nat, ghost words: seq<Word64>)
      returns (sp: nat)
    requires n <= |pointers| && |words| + n <= top <= |before| && start == top - |words|
    requires stack[..] == Pushed(before, top, words)
    modifies stack
    ensures sp == start - n && stack[..] == Pushed(before, top, pointers[..n] + words)
  {
    hide Pushed;
    sp := start;
    var i: int := n - 1;
    assert pointers[n..n] + words == words;
    while i >= 0
      invariant -1 <= i < n && sp == start - (n - 1 - i)
      invariant stack[..] == Pushed(before, top, pointers[i + 1..n] + words)
    {
      sp := Push(stack, sp, pointers[i], before, top, pointers[i + 1..n] + words);
      PrependToSlice(pointers, i, n, words);
      i := i - 1;
    }
    assert pointers[0..n] == pointers[..n];
  }
}
