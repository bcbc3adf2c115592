/** Transport keys: `<run>`, or `<run>#<run id>.<stream>` for what a run publishes.

    A key is how the parts of a pipeline that never meet agree on what belongs
    together: subscriptions match it as text, hosts parse it into its three
    parts, registries cut the run off it. The lemmas say when a printed key
    parses back to itself, and when the three ways of reading the run agree. */
module Keys {

  datatype Option<+T> = None | Some(value: T)

  /** What a key says: the run, the run's id, and its stream. */
  datatype StreamKey = StreamKey(run: string, runId: int, stream: int)

  const SEPARATOR := '#'

  // ---------------------------------------------------------------- text

  /** Where `c` first occurs in `s`, or `|s|`. */
  function IndexOf(s: string, c: char): (i: nat)
    ensures i <= |s| && c !in s[..i]
    ensures i < |s| ==> s[i] == c
    ensures i == |s| <==> c !in s
  {
    if s == "" || s[0] == c then 0 else
      var i := IndexOf(s[1..], c);
      assert s[..i + 1] == [s[0]] + s[1..][..i];
      i + 1
  }

  /** The first occurrence is the only place a text can be cut at `c` so that
      the part before is free of it. */
  lemma IndexOfAppend(a: string, c: char, b: string)
    requires c !in a
    ensures IndexOf(a + [c] + b, c) == |a|
  {
    var s := a + [c] + b;
    var i := IndexOf(s, c);
    assert s[|a|] == c;
    assert forall j :: 0 <= j < |a| ==> s[j] in a;
    assert forall j :: |a| < j <= |s| ==> s[|a|] in s[..j];
  }

  function Digit(c: char): Option<int>
  {
    if '0' <= c <= '9' then Some(c as int - '0' as int) else None
  }

  /** Decimal digits, with single underscores between them. */
  function DigitsOf(s: string): Option<int>
  {
    if s == "" then None else
    var last := Digit(s[|s| - 1]);
    var front := s[..|s| - 1];
    if last.None? then None
    else if front == "" then last
    else
      var high := DigitsOf(if front[|front| - 1] == '_' then front[..|front| - 1] else front);
      if high.None? then None else Some(high.value * 10 + last.value)
  }

  predicate IsSpace(c: char)
  {
    c == ' ' || ('\t' <= c <= '\r') || ('\U{1c}' <= c <= '\U{1f}')
  }

  function Strip(s: string): string
  {
    if s == "" then s
    else if IsSpace(s[0]) then Strip(s[1..])
    else if IsSpace(s[|s| - 1]) then Strip(s[..|s| - 1])
    else s
  }

  /** The integer a text spells, as the language's own conversion reads it:
      outer blanks, one sign, digits with single underscores between them. */
  function IntOf(s: string): Option<int>
  {
    var t := Strip(s);
    if t == "" then None
    else if t[0] == '-' then
      var n := DigitsOf(t[1..]);
      if n.None? then None else Some(-n.value)
    else if t[0] == '+' then DigitsOf(t[1..])
    else DigitsOf(t)
  }

  function Decimal(n: nat): (s: string)
    ensures s != "" && forall c :: c in s ==> '0' <= c <= '9'
  {
    var digit := ['0' as char + (n % 10) as char];
    if n < 10 then digit else Decimal(n / 10) + digit
  }

  function Text(n: int): (s: string)
    ensures s != "" && SEPARATOR !in s && '.' !in s
  {
    if n < 0 then "-" + Decimal(-n) else Decimal(n)
  }

  lemma {:induction false} DecimalReadsBack(n: nat)
    ensures DigitsOf(Decimal(n)) == Some(n)
  {
    var s := Decimal(n);
    if n >= 10 {
      DecimalReadsBack(n / 10);
      assert s[..|s| - 1] == Decimal(n / 10);
    }
  }

  lemma Unstripped(s: string)
    requires s != "" && !IsSpace(s[0]) && !IsSpace(s[|s| - 1])
    ensures Strip(s) == s
  {
  }

  lemma {:induction false} TextReadsBack(n: int)
    ensures IntOf(Text(n)) == Some(n)
  {
    var s, digits := Text(n), Decimal(if n < 0 then -n else n);
    DecimalReadsBack(if n < 0 then -n else n);
    assert s == if n < 0 then "-" + digits else digits;
    hide DigitsOf, Decimal, Strip, Text;
    assert digits[0] in digits && digits[|digits| - 1] in digits;
    assert s[|s| - 1] == digits[|digits| - 1];
    Unstripped(s);
    if n < 0 {
      assert s[1..] == digits;
    }
  }

  // ---------------------------------------------------------------- keys

  /** A key's text cut at its first separator: the part before, and the part
      after if there is one. */
  function Partition(s: string, c: char): (string, Option<string>)
  {
    var i := IndexOf(s, c);
    if i == |s| then (s, None) else (s[..i], Some(s[i + 1..]))
  }

  /** The run id and stream spelled after the separator, if they are integers. */
  function GenerationOf(generation: string): Option<(int, int)>
  {
    var (idText, rest) := Partition(generation, '.');
    var streamText := if rest.None? || rest.value == "" then "0" else rest.value;
    var id := IntOf(idText);
    var stream := IntOf(streamText);
    if id.None? || stream.None? then None else Some((id.value, stream.value))
  }

  /** Whether the text reads as a key with a generation of its own. */
  predicate Numbered(key: string)
  {
    var generation := Partition(key, SEPARATOR).1;
    generation.Some? && GenerationOf(generation.value).Some?
  }

  function Parse(key: string): StreamKey
  {
    var (run, generation) := Partition(key, SEPARATOR);
    if generation.None? then StreamKey(run, 0, 0) else
    var numbers := GenerationOf(generation.value);
    if numbers.None? then StreamKey(key, 0, 0)
    else StreamKey(run, numbers.value.0, numbers.value.1)
  }

  function Print(k: StreamKey): string
  {
    if k.runId == 0 && k.stream == 0 then k.run
    else k.run + [SEPARATOR] + Text(k.runId) + "." + Text(k.stream)
  }

  function RunOf(key: string): string
  {
    Partition(key, SEPARATOR).0
  }

  /** Whether a subscription to `wanted` hears a record keyed `key`. */
  predicate Wants(wanted: string, key: string)
  {
    key == wanted || wanted + [SEPARATOR] <= key
  }

  lemma PartitionAppend(a: string, c: char, b: string)
    requires c !in a
    ensures Partition(a + [c] + b, c) == (a, Some(b))
  {
    var s := a + [c] + b;
    IndexOfAppend(a, c, b);
    assert s[..|a|] == a && s[|a| + 1..] == b;
  }

  lemma PrintedGeneration(id: int, stream: int)
    ensures GenerationOf(Text(id) + "." + Text(stream)) == Some((id, stream))
  {
    PartitionAppend(Text(id), '.', Text(stream));
    assert Text(id) + "." + Text(stream) == Text(id) + ['.'] + Text(stream);
    TextReadsBack(id);
    TextReadsBack(stream);
  }

  /** What a printed key with numbers of its own is cut into. */
  lemma PrintedParts(k: StreamKey)
    requires !(k.runId == 0 && k.stream == 0) && SEPARATOR !in k.run
    ensures Partition(Print(k), SEPARATOR) == (k.run, Some(Text(k.runId) + "." + Text(k.stream)))
  {
    var generation := Text(k.runId) + "." + Text(k.stream);
    PartitionAppend(k.run, SEPARATOR, generation);
    assert Print(k) == k.run + [SEPARATOR] + generation;
  }

  /** A key whose run holds no separator survives printing and parsing,
      whatever its numbers are. */
  lemma RoundTrip(k: StreamKey)
    requires SEPARATOR !in k.run
    ensures Parse(Print(k)) == k
  {
    if !(k.runId == 0 && k.stream == 0) {
      PrintedParts(k);
      PrintedGeneration(k.runId, k.stream);
    }
  }

  /** A key printed with numbers cannot have a separator in its run: the cut
      comes too early. */
  lemma CutTooEarly(k: StreamKey)
    requires !(k.runId == 0 && k.stream == 0) && SEPARATOR in k.run
    ensures Parse(Print(k)).run != k.run
  {
    var i := IndexOf(k.run, SEPARATOR);
    var front := k.run[..i];
    var tail := PrintTail(k);
    var rest := k.run[i + 1..] + tail;
    assert k.run == front + [SEPARATOR] + k.run[i + 1..];
    hide IndexOf, Text, Print, GenerationOf;
    Regroup(front, SEPARATOR, k.run[i + 1..], tail);
    PartitionAppend(front, SEPARATOR, rest);
    assert |front| < |k.run| < |Print(k)|;
  }

  lemma PrintTail(k: StreamKey) returns (tail: string)
    requires !(k.runId == 0 && k.stream == 0)
    ensures Print(k) == k.run + tail && tail != []
  {
    tail := [SEPARATOR] + Text(k.runId) + "." + Text(k.stream);
    hide Text;
  }

  lemma Regroup(a: string, c: char, b: string, tail: string)
    ensures a + [c] + b + tail == a + [c] + (b + tail)
  {
  }

  lemma BareRun(run: string)
    requires SEPARATOR in run
    ensures Parse(run) == StreamKey(run, 0, 0) <==> !Numbered(run)
  {
    hide GenerationOf;
    var i := IndexOf(run, SEPARATOR);
    assert |run[..i]| < |run|;
  }

  /** Exactly the keys that survive: the run holds no separator, or the key is
      a bare run that does not itself read as a numbered key. */
  lemma RoundTripExactly(k: StreamKey)
    ensures Parse(Print(k)) == k <==>
            (SEPARATOR !in k.run || (k.runId == 0 && k.stream == 0 && !Numbered(k.run)))
  {
    if SEPARATOR !in k.run {
      RoundTrip(k);
    } else if k.runId == 0 && k.stream == 0 {
      BareRun(k.run);
      assert Print(k) == k.run && k == StreamKey(k.run, 0, 0);
      hide *;
    } else {
      CutTooEarly(k);
      hide *;
    }
  }

  lemma WantsExactly(wanted: string, run: string, rest: string)
    requires SEPARATOR !in run && SEPARATOR !in wanted
    ensures Wants(wanted, run + [SEPARATOR] + rest) <==> wanted == run
  {
    var s := run + [SEPARATOR] + rest;
    assert s[|run|] == SEPARATOR;
    if wanted + [SEPARATOR] <= s {
      var after := s[|wanted| + 1..];
      assert s == wanted + [SEPARATOR] + after;
      PartitionAppend(wanted, SEPARATOR, after);
      PartitionAppend(run, SEPARATOR, rest);
    }
  }

  lemma NoLongerPrefix(wanted: string, run: string)
    requires SEPARATOR !in run
    ensures !(wanted + [SEPARATOR] <= run)
  {
    var longer := wanted + [SEPARATOR];
    assert SEPARATOR == longer[|wanted|];
    assert forall j :: 0 <= j < |run| ==> run[j] != SEPARATOR;
  }

  lemma BareKey(run: string, wanted: string)
    requires SEPARATOR !in run
    ensures RunOf(run) == run && (Wants(wanted, run) <==> wanted == run)
  {
    NoLongerPrefix(wanted, run);
  }

  lemma NumberedKey(k: StreamKey, wanted: string)
    requires !(k.runId == 0 && k.stream == 0) && SEPARATOR !in k.run && SEPARATOR !in wanted
    ensures RunOf(Print(k)) == k.run && (Wants(wanted, Print(k)) <==> wanted == k.run)
  {
    PrintedParts(k);
    var generation := Text(k.runId) + "." + Text(k.stream);
    assert Print(k) == k.run + [SEPARATOR] + generation;
    hide Text, Print, Wants, Partition;
    WantsExactly(wanted, k.run, generation);
  }

  /** On printed keys the subscription's text match, the cut and the parse name
      the same run, and so a subscription hears that run only: `42` never
      hears `421`. */
  lemma RunTestsAgree(k: StreamKey, wanted: string)
    requires SEPARATOR !in k.run && SEPARATOR !in wanted
    ensures RunOf(Print(k)) == k.run && Parse(Print(k)).run == k.run
    ensures Wants(wanted, Print(k)) <==> wanted == k.run
  {
    hide Parse, Wants, RunOf, Text;
    RoundTrip(k);
    if k.runId == 0 && k.stream == 0 {
      BareKey(k.run, wanted);
    } else {
      NumberedKey(k, wanted);
    }
  }

  /** On any text at all: the cut and the parse differ exactly on a key that
      has a separator but no integers after it, which parses as opaque. */
  lemma {:induction false} CutAndParseDiffer(key: string)
    ensures RunOf(key) == Parse(key).run <==> (SEPARATOR !in key || Numbered(key))
  {
    var i := IndexOf(key, SEPARATOR);
    if i < |key| {
      assert |key[..i]| < |key|;
    }
  }

  lemma ReadsOneNumber(id: int)
    ensures GenerationOf(Text(id)) == Some((id, 0)) && GenerationOf(Text(id) + ".") == Some((id, 0))
  {
    var text := Text(id);
    TextReadsBack(id);
    assert IntOf("0") == Some(0) by { TextReadsBack(0); }
    assert Partition(text, '.') == (text, None) by { WholeText(text, '.'); }
    PartitionAppend(text, '.', "");
    assert text + ['.'] + "" == text + ".";
    hide Text, IntOf, Partition;
  }

  lemma WholeText(s: string, c: char)
    requires c !in s
    ensures Partition(s, c) == (s, None)
  {
  }

  /** A key whose generation names no stream is of stream 0, and one whose
      generation is no number is a plain key, all of it. */
  lemma ShortKeysRead(run: string, id: int, other: string)
    requires SEPARATOR !in run
    ensures Parse(run + [SEPARATOR] + Text(id)) == StreamKey(run, id, 0)
    ensures Parse(run + [SEPARATOR] + Text(id) + ".") == StreamKey(run, id, 0)
    ensures GenerationOf(other) == None ==> Parse(run + [SEPARATOR] + other) == StreamKey(run + [SEPARATOR] + other, 0, 0)
  {
    ReadsOneNumber(id);
    hide Text, GenerationOf;
    PartitionAppend(run, SEPARATOR, Text(id));
    PartitionAppend(run, SEPARATOR, Text(id) + ".");
    PartitionAppend(run, SEPARATOR, other);
    assert run + [SEPARATOR] + Text(id) + "." == run + [SEPARATOR] + (Text(id) + ".");
  }

  /** Numbers are read as the language reads them: outer blanks and a sign are
      allowed, and single underscores between digits; nothing else is. */
  lemma NumbersRead()
    ensures IntOf("+7") == Some(7) && IntOf("-7") == Some(-7) && IntOf(" 7") == Some(7) && IntOf("7\n") == Some(7)
    ensures IntOf("1_0") == Some(10) && IntOf("_1") == None && IntOf("1_") == None && IntOf("1__0") == None
    ensures IntOf("") == None && IntOf(" ") == None && IntOf("-") == None && IntOf("x") == None
  {
    NumberReads("7", 7);
    assert Strip(" 7") == "7" by { assert " 7"[1..] == "7"; }
    assert Strip("7\n") == "7" by { assert "7\n"[..1] == "7"; }
    assert "+7"[1..] == "7" && "-7"[1..] == "7";
    assert "1_0"[..2] == "1_" && "1_"[..1] == "1" && "1"[..0] == "";
    assert "_1"[..1] == "_" && "_"[..0] == "" && "1__0"[..3] == "1__" && "1__"[..2] == "1_";
    assert " "[1..] == "" && "-"[1..] == "";
  }

  lemma NumberReads(s: string, n: int)
    requires |s| == 1 && Digit(s[0]) == Some(n)
    ensures DigitsOf(s) == Some(n)
  {
    assert s[..0] == "";
  }

  // ---------------------------------------------------------------- run ids

  /** The next run id: the clock in milliseconds, past the last one given. */
  function NextRunId(last: int, clock: int): int
  {
    if clock >= last + 1 then clock else last + 1
  }

  /** The ids given while the clock reads `clocks`, one reading an id. */
  function Issued(last: int, clocks: seq<int>): (ids: seq<int>)
    decreases clocks
    ensures |ids| == |clocks|
  {
    if clocks == [] then [] else
      var id := NextRunId(last, clocks[0]);
      [id] + Issued(id, clocks[1..])
  }

  /** Ids increase within a process however the clock moves, and each is at
      least its clock reading. */
  lemma {:induction false} IdsIncrease(last: int, clocks: seq<int>)
    decreases clocks
    ensures var ids := Issued(last, clocks);
            && (forall i :: 0 <= i < |ids| ==> ids[i] > last && ids[i] >= clocks[i])
            && (forall i :: 0 <= i < |ids| ==> ids[i] == clocks[i] || ids[i] == (if i == 0 then last else ids[i - 1]) + 1)
            && (forall i, j :: 0 <= i < j < |ids| ==> ids[i] < ids[j])
  {
    if clocks != [] {
      var id := NextRunId(last, clocks[0]);
      IdsIncrease(id, clocks[1..]);
      var ids := Issued(last, clocks);
      assert forall i :: 1 <= i < |ids| ==> ids[i] == Issued(id, clocks[1..])[i - 1] && clocks[i] == clocks[1..][i - 1];
    }
  }

  /** The process's counter of run ids. */
  class RunIds {
    var last: int

    constructor ()
      ensures last == 0
    {
      last := 0;
    }

    method Next(clock: int) returns (id: int)
      modifies this
      ensures id == last == NextRunId(old(last), clock)
      ensures id > old(last) && id >= clock && (id == clock || id == old(last) + 1)
    {
      last := if clock >= last + 1 then clock else last + 1;
      id := last;
    }
  }
}
