/**
 * The per-session conversation memory: a map from session id to a bounded
 * FIFO of turns (`deque(maxlen=2 * max_turns)`), with history export, a
 * formatted and truncated prompt rendering, the last-n messages and clear.
 */
module Memory {
  import opened Text

  /** One stored turn; the wall-clock time stamp of a turn is not modelled. */
  datatype Turn = Turn(role: string, content: string)

  /** `d.append(x)` on a deque with `maxlen == cap` that holds at most `cap` items. */
  function DequeAppend(d: seq<Turn>, x: Turn, cap: nat): (r: seq<Turn>)
    requires |d| <= cap
    ensures |r| <= cap
  {
    if |d| < cap then d + [x] else (d + [x])[1..]
  }

  /** Reference definition: the `cap` most recent entries of `log`, oldest first. */
  function Window(log: seq<Turn>, cap: nat): (w: seq<Turn>)
    ensures |w| == Min(|log|, cap)
  {
    if |log| <= cap then log else log[|log| - cap..]
  }

  /** Appending to the window of a log is the window of the longer log. */
  lemma DequeAppendWindow(log: seq<Turn>, x: Turn, cap: nat)
    ensures DequeAppend(Window(log, cap), x, cap) == Window(log + [x], cap)
  {
    var w := Window(log, cap);
    if |log| < cap {
      assert w == log;
    } else {
      assert w + [x] == (log + [x])[|log| - cap..];
    }
  }

  /** The window is a suffix of the log: exactly its most recent entries, in order. */
  lemma {:induction false} WindowIsRecent(log: seq<Turn>, cap: nat, i: nat)
    requires i < |Window(log, cap)|
    ensures Window(log, cap)[i] == log[|log| - |Window(log, cap)| + i]
  {
  }

  /** The line rendered for one turn. */
  function TurnLine(t: Turn): string {
    (if t.role == "user" then "Human" else "Assistant") + ": " + PyTake(t.content, 500)
  }

  /** A line starts with `Human: ` exactly when its turn has role `user`. */
  lemma TurnLineSpeaker(t: Turn)
    ensures IsPrefix("Human: ", TurnLine(t)) <==> t.role == "user"
    ensures t.role != "user" ==> IsPrefix("Assistant: ", TurnLine(t))
  {
    var l := TurnLine(t);
    if t.role != "user" {
      assert l == "Assistant: " + PyTake(t.content, 500);
      assert l[0] == 'A';
    } else {
      assert l == "Human: " + PyTake(t.content, 500);
      assert l[..7] == "Human: ";
    }
  }

  /** Every line keeps at most 500 characters of its turn's content. */
  lemma TurnLineBound(t: Turn)
    ensures |TurnLine(t)| <= |"Assistant: "| + 500
    ensures |t.content| <= 500 ==> IsPrefix(t.content, TurnLine(t)[|TurnLine(t)| - |t.content|..])
  {
    var l := TurnLine(t);
    if |t.content| <= 500 {
      assert PyTake(t.content, 500) == t.content;
      assert l[|l| - |t.content|..] == t.content;
    }
  }

  function Lines(h: seq<Turn>): (ls: seq<string>)
    ensures |ls| == |h|
    ensures forall i :: 0 <= i < |h| ==> ls[i] == TurnLine(h[i])
  {
    seq(|h|, i requires 0 <= i < |h| => TurnLine(h[i]))
  }

  const TruncationMarker: string := "...[truncated]\n"

  /** What `get_formatted_context` returns for a history and a character budget. */
  function Render(h: seq<Turn>, maxChars: int): string {
    if h == [] then ""
    else
      var full := Join(Lines(h), "\n");
      if |full| > maxChars then TruncationMarker + PyTail(full, maxChars) else full
  }

  /**
   * The rendering is empty exactly for the empty history, fits the budget
   * plus the marker for a positive budget, and keeps the whole text behind the
   * marker for a zero budget (the `[-0:]` slice).
   */
  lemma RenderFacts(h: seq<Turn>, maxChars: int)
    ensures h == [] ==> Render(h, maxChars) == ""
    ensures h != [] && maxChars > 0 ==> |Render(h, maxChars)| <= maxChars + |TruncationMarker|
    ensures h != [] && maxChars == 0 ==>
      Render(h, maxChars) == TruncationMarker + Join(Lines(h), "\n")
    ensures h != [] && |Join(Lines(h), "\n")| > maxChars ==>
      IsPrefix(TruncationMarker, Render(h, maxChars))
  {
    if h != [] {
      var full := Join(Lines(h), "\n");
      var r := Render(h, maxChars);
      assert TurnLine(h[|h| - 1]) != "";
      assert |full| >= |Lines(h)[|h| - 1]|;
      if |full| > maxChars {
        assert r == TruncationMarker + PyTail(full, maxChars);
        assert r[..|TruncationMarker|] == TruncationMarker;
      }
    }
  }

  /** A truncated rendering ends with the last `maxChars` characters of the full text. */
  lemma RenderKeepsTail(h: seq<Turn>, maxChars: int)
    requires h != [] && maxChars > 0
    requires |Join(Lines(h), "\n")| > maxChars
    ensures var full := Join(Lines(h), "\n");
      Render(h, maxChars)[|TruncationMarker|..] == full[|full| - maxChars..]
  {
    var full := Join(Lines(h), "\n");
    PyTailSuffix(full, maxChars);
  }

  class ConversationMemory {
    const maxTurns: nat
    var sessions: map<string, seq<Turn>>
    /** Every turn ever appended to each live session, oldest first. */
    ghost var appended: map<string, seq<Turn>>

    function Capacity(): nat {
      2 * maxTurns
    }

    /** Each stored deque is the window of all turns appended to its session. */
    ghost predicate Valid()
      reads this
    {
      && sessions.Keys == appended.Keys
      && forall sid :: sid in sessions ==> sessions[sid] == Window(appended[sid], Capacity())
    }

    constructor(maxTurns: nat)
      ensures Valid()
      ensures this.maxTurns == maxTurns && sessions == map[] && appended == map[]
    {
      this.maxTurns := maxTurns;
      sessions := map[];
      appended := map[];
    }

    ghost function Log(sid: string): seq<Turn>
      reads this
    {
      if sid in appended then appended[sid] else []
    }

    /** `get_history`: an unknown session reads as empty, a known one as its window. */
    function History(sid: string): (h: seq<Turn>)
      reads this
      ensures sid !in sessions ==> h == []
      ensures Valid() ==> h == Window(Log(sid), Capacity())
      ensures Valid() ==> |h| <= Capacity()
    {
      if sid in sessions then sessions[sid] else []
    }

    /** `add_turn`: creates the session on first write and touches no other one. */
    method AddTurn(sid: string, role: string, content: string)
      requires Valid()
      modifies this
      ensures Valid()
      ensures appended == old(appended)[sid := old(Log(sid)) + [Turn(role, content)]]
      ensures Log(sid) == old(Log(sid)) + [Turn(role, content)]
      ensures sessions == old(sessions)[sid := DequeAppend(old(History(sid)), Turn(role, content), Capacity())]
      ensures History(sid) == Window(old(Log(sid)) + [Turn(role, content)], Capacity())
      ensures forall other :: other != sid ==> History(other) == old(History(other))
    {
      // A missing session reads as an empty deque: `defaultdict` creates a fresh `deque(maxlen=...)`.
      var turn := Turn(role, content);
      var d := History(sid);
      ghost var log := Log(sid);
      DequeAppendWindow(log, turn, Capacity());
      sessions := sessions[sid := DequeAppend(d, turn, Capacity())];
      appended := appended[sid := log + [turn]];
    }

    /** `get_formatted_context`: one line per turn, then truncation from the oldest end. */
    method FormattedContext(sid: string, maxChars: int) returns (r: string)
      ensures r == Render(History(sid), maxChars)
      ensures History(sid) == [] <==> r == ""
    {
      var history := History(sid);
      if history == [] {
        return "";
      }
      var lines: seq<string> := [];
      for i := 0 to |history|
        invariant |lines| == i
        invariant forall k :: 0 <= k < i ==> lines[k] == TurnLine(history[k])
      {
        var role := if history[i].role == "user" then "Human" else "Assistant";
        var content := PyTake(history[i].content, 500);
        lines := lines + [role + ": " + content];
      }
      assert lines == Lines(history);
      var fullContext := Join(lines, "\n");
      if |fullContext| > maxChars {
        fullContext := "...[truncated]\n" + PyTail(fullContext, maxChars);
      }
      r := fullContext;
      RenderNonEmpty(history, maxChars);
    }

    /** `get_recent_messages(n)`: the last `n` turns, the whole history when `n == 0`. */
    method RecentMessages(sid: string, n: int) returns (m: seq<Turn>)
      ensures m == PyTail(History(sid), n)
    {
      var h := History(sid);
      m := PyTail(h, n);
    }

    /** `clear`: drops the session if it exists; unknown ids are a no-op. */
    method Clear(sid: string)
      requires Valid()
      modifies this
      ensures Valid()
      ensures sessions == old(sessions) - {sid} && appended == old(appended) - {sid}
      ensures SessionCount() == old(SessionCount()) - (if sid in old(sessions) then 1 else 0)
    {
      sessions := sessions - {sid};
      appended := appended - {sid};
    }

    /** `session_count`: the number of live sessions. */
    function SessionCount(): (n: nat)
      reads this
      ensures n == 0 <==> sessions == map[]
    {
      |sessions.Keys|
    }
  }

  /** A non-empty history renders to a non-empty text, whatever the budget. */
  lemma RenderNonEmpty(h: seq<Turn>, maxChars: int)
    requires h != []
    ensures Render(h, maxChars) != ""
  {
    var ls := Lines(h);
    assert TurnLine(h[|h| - 1]) != "";
    assert |Join(ls, "\n")| >= |ls[|ls| - 1]|;
  }

  /** Adding a turn creates a session exactly when the id was unknown: the count grows by one or stays. */
  lemma SessionCountAfterAdd(sessions: map<string, seq<Turn>>, sid: string, d: seq<Turn>)
    ensures |sessions[sid := d].Keys| == |sessions.Keys| + (if sid in sessions then 0 else 1)
  {
    assert sessions[sid := d].Keys == sessions.Keys + {sid};
  }
}
