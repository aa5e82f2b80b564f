/**
 * The log / preview list of both applications: `_log` adds a line and, once the list holds
 * more than its cap (120 in Excel-visualizer.py, 60 in the basic variant), takes out line 0.
 */
module LogBuffer {

  /** The list after one `_log(msg)`: the old lines and the message, less the oldest line when there are more than `cap`. */
  function Append<T>(lines: seq<T>, msg: T, cap: nat): (r: seq<T>)
  {
    var grown := lines + [msg];
    if |grown| > cap then grown[1..] else grown
  }

  /** The list after `_log` of each message in turn (`AppendAllIsWindow` says what it holds). */
  function AppendAll<T>(lines: seq<T>, msgs: seq<T>, cap: nat): (r: seq<T>)
    decreases |msgs|
  {
    if msgs == [] then lines else AppendAll(Append(lines, msgs[0], cap), msgs[1..], cap)
  }

  /** The most recent `cap` lines of a history (all of it when it is shorter). */
  function Window<T>(history: seq<T>, cap: nat): (r: seq<T>)
    ensures |r| == if |history| <= cap then |history| else cap
    ensures r == history[|history| - |r|..]
  {
    if |history| <= cap then history else history[|history| - cap..]
  }

  /**
   * One `_log` on a list within its cap: the list stays within the cap, the message is the last
   * line, and at most the oldest line is removed, exactly when the list was full.
   */
  lemma AppendWithinCap<T>(lines: seq<T>, msg: T, cap: nat)
    requires 0 < cap && |lines| <= cap
    ensures var r := Append(lines, msg, cap);
      && |r| <= cap
      && r[|r| - 1] == msg
      && (|lines| < cap ==> r == lines + [msg])
      && (|lines| == cap ==> r == lines[1..] + [msg])
  {
  }

  /** Logging onto the window of a history gives the window of the longer history. */
  lemma AppendIsWindow<T>(history: seq<T>, msg: T, cap: nat)
    requires 0 < cap
    ensures Append(Window(history, cap), msg, cap) == Window(history + [msg], cap)
  {
    var h := history + [msg];
    if |history| >= cap {
      var w := Window(history, cap);
      assert |w| == cap;
      assert (w + [msg])[1..] == h[|h| - cap..];
    }
  }

  /** Any run of `_log` calls on a list within its cap keeps exactly the newest `cap` lines. */
  lemma {:induction false} AppendAllIsWindow<T>(lines: seq<T>, msgs: seq<T>, cap: nat)
    requires 0 < cap && |lines| <= cap
    ensures AppendAll(lines, msgs, cap) == Window(lines + msgs, cap)
    decreases |msgs|
  {
    if msgs == [] {
      assert lines + msgs == lines;
    } else {
      var m, rest := msgs[0], msgs[1..];
      var next := Append(lines, m, cap);
      assert Window(lines, cap) == lines;
      AppendIsWindow(lines, m, cap);
      assert next == Window(lines + [m], cap);
      AppendAllIsWindow(next, rest, cap);
      WindowOfWindow(lines + [m], rest, cap);
      assert lines + [m] + rest == lines + msgs;
    }
  }

  /** Forgetting lines older than the window does not change any later window. */
  lemma WindowOfWindow<T>(history: seq<T>, more: seq<T>, cap: nat)
    ensures Window(Window(history, cap) + more, cap) == Window(history + more, cap)
  {
    var w := Window(history, cap);
    if |history| > cap {
      var a, b := w + more, history + more;
      var d := |history| - cap;
      assert w == history[d..] && |w| == cap;
      assert a == b[d..];
      assert Window(a, cap) == a[|a| - cap..];
      assert a[|a| - cap..] == b[d..][|a| - cap..] == b[|b| - cap..];
    }
  }

  /** One and two `_log` calls in a row, as runs. */
  lemma AppendAllOne<T>(lines: seq<T>, a: T, cap: nat)
    ensures AppendAll(lines, [a], cap) == Append(lines, a, cap)
  {
    assert [a][1..] == [];
  }

  lemma AppendAllTwo<T>(lines: seq<T>, a: T, b: T, cap: nat)
    ensures AppendAll(lines, [a, b], cap) == Append(Append(lines, a, cap), b, cap)
  {
    assert [a, b][1..] == [b];
    AppendAllOne(Append(lines, a, cap), b, cap);
  }
}
