// The interactive loop around process_query: read a line, strip it, stop on "quit" in any
// letter case, otherwise hand the stripped line over as a query.

module ChatLoop {
  import opened Text

  /** `input().strip().lower() == 'quit'` */
  predicate IsQuit(line: string)
  {
    Lower(Strip(line)) == "quit"
  }

  /** A character that lower-cases to a letter is not whitespace. */
  lemma LetterIsNotSpace(c: char, letter: char)
    requires 'a' <= letter <= 'z' && LowerChar(c) == letter
    ensures !IsSpace(c)
  {
  }

  /** A line the loop stops on is whitespace, "quit" in some mix of cases, whitespace. */
  lemma {:induction false} QuitShape(line: string)
    requires IsQuit(line)
    ensures exists i :: 0 <= i && i + 4 <= |line| && AllSpace(line[..i]) && AllSpace(line[i + 4..])
                        && Lower(line[i..i + 4]) == "quit"
  {
    var t := TrimStart(line);
    var w := TrimEnd(t);
    var i := |line| - |t|;
    assert |w| == 4 by {
      assert |Lower(w)| == |w|;
    }
    assert line[i..i + 4] == w;
    assert line[i + 4..] == t[|w|..];
  }

  /** Every such line stops the loop, whatever the letter case and the padding. */
  lemma {:induction false} QuitPadded(pre: string, word: string, post: string)
    requires AllSpace(pre) && AllSpace(post)
    requires |word| == 4 && Lower(word) == "quit"
    ensures IsQuit(pre + word + post)
  {
    LetterIsNotSpace(word[0], 'q');
    LetterIsNotSpace(word[3], 't');
    assert (word + post)[0] == word[0];
    assert pre + word + post == pre + (word + post);
    TrimStartPadded(pre, word + post);
    TrimEndPadded(word, post);
  }

  /** One read from standard input. */
  datatype LineRead = Line(text: string) | EndOfInput

  /** What the loop does with one read. */
  datatype Step = Exit | Submit(query: string) | ShowError

  /**
   * The loop body as written: at end of input `input()` raises EOFError, which the loop's
   * `except Exception` catches and prints before reading again.
   */
  function StepAsWritten(read: LineRead): Step
  {
    match read
    case EndOfInput => ShowError
    case Line(text) => if IsQuit(text) then Exit else Submit(Strip(text))
  }

  /** The loop body with end of input ending the session. */
  function NextStep(read: LineRead): Step
  {
    match read
    case EndOfInput => Exit
    case Line(text) => if IsQuit(text) then Exit else Submit(Strip(text))
  }

  /** The queries handed to process_query, and whether the loop has ended. */
  datatype Session = Session(queries: seq<string>, exited: bool)

  /** Running the loop over `lines` with body `step`; running out of lines leaves it waiting. */
  function Run(lines: seq<LineRead>, step: LineRead -> Step): Session
  {
    if lines == [] then Session([], false)
    else match step(lines[0])
      case Exit => Session([], true)
      case ShowError => Run(lines[1..], step)
      case Submit(query) =>
        var rest := Run(lines[1..], step);
        Session([query] + rest.queries, rest.exited)
  }

  /** As written, however many times end of input is read, the loop neither stops nor submits. */
  lemma {:induction false} EndOfInputNeverExits(n: nat)
    ensures Run(seq(n, _ => EndOfInput), StepAsWritten) == Session([], false)
  {
    if n > 0 {
      assert seq(n, _ => EndOfInput)[1..] == seq(n - 1, _ => EndOfInput);
      EndOfInputNeverExits(n - 1);
    }
  }

  /** A read on which the body exits ends the loop, whatever was read before it. */
  lemma {:induction false} ExitsAt(lines: seq<LineRead>, k: nat, step: LineRead -> Step)
    requires k < |lines| && step(lines[k]) == Exit
    ensures Run(lines, step).exited
  {
    if k > 0 && step(lines[0]) != Exit {
      assert lines[1..][k - 1] == lines[k];
      ExitsAt(lines[1..], k - 1, step);
    }
  }

  /** With the corrected body, reaching end of input ends the loop. */
  lemma EndOfInputExits(lines: seq<LineRead>, k: nat)
    requires k < |lines| && lines[k] == EndOfInput
    ensures Run(lines, NextStep).exited
  {
    ExitsAt(lines, k, NextStep);
  }

  /** Typing "quit", in any case and with any padding, ends the loop. */
  lemma QuitExits(lines: seq<LineRead>, k: nat)
    requires k < |lines| && lines[k].Line? && IsQuit(lines[k].text)
    ensures Run(lines, NextStep).exited && Run(lines, StepAsWritten).exited
  {
    ExitsAt(lines, k, NextStep);
    ExitsAt(lines, k, StepAsWritten);
  }

  /**
   * While every read is handed over as a query (neither "quit" nor, in the corrected loop,
   * end of input), the loop submits one query per read, in order, and keeps going.
   */
  lemma {:induction false} SubmitsInOrder(lines: seq<LineRead>, step: LineRead -> Step)
    requires forall k :: 0 <= k < |lines| ==> step(lines[k]).Submit?
    ensures |Run(lines, step).queries| == |lines|
    ensures forall k :: 0 <= k < |lines| ==> Run(lines, step).queries[k] == step(lines[k]).query
    ensures !Run(lines, step).exited
  {
    if lines != [] {
      SubmitsInOrder(lines[1..], step);
      assert forall k :: 1 <= k < |lines| ==> lines[1..][k - 1] == lines[k];
    }
  }

  /**
   * `chat_loop` with its lines given in advance and its body as `step`: returns the queries
   * it hands to process_query and whether it ended, as Run with that body. With
   * StepAsWritten it is the loop as written; with NextStep, the corrected loop.
   */
  method Loop(lines: seq<LineRead>, step: LineRead -> Step) returns (queries: seq<string>, exited: bool)
    ensures Session(queries, exited) == Run(lines, step)
  {
    queries, exited := [], false;
    var i := 0;
    while i < |lines| && !exited
      invariant 0 <= i <= |lines|
      invariant exited ==> Run(lines, step) == Session(queries, true)
      invariant !exited ==>
        Run(lines, step) == Session(queries + Run(lines[i..], step).queries, Run(lines[i..], step).exited)
    {
      assert lines[i..][0] == lines[i] && lines[i..][1..] == lines[i + 1..];
      ghost var rest := Run(lines[i + 1..], step);
      match step(lines[i]) {
        case Exit =>
          assert Run(lines[i..], step) == Session([], true);
          exited := true;
        case ShowError =>
        case Submit(query) =>
          assert Run(lines[i..], step) == Session([query] + rest.queries, rest.exited);
          assert queries + ([query] + rest.queries) == queries + [query] + rest.queries;
          queries := queries + [query];
      }
      i := i + 1;
    }
  }
}
