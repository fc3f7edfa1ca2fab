/**
 Fitting a chat into the model's context: old tool results are shortened, earlier rounds removed, and the latest
 round's results cut, in place and in this order, until the estimated tokens are within the budget.
 */
module ChatContext {
  import opened Utf8

  const BytesPerToken := 3
  const SchemaBytesPerToken := 4
  const ImageTokens := 1500
  const MinResultTokens := 1024

  datatype Role = System | User | Assistant | Tool

  datatype Call = Call(name: Bytes, arguments: Bytes)

  datatype Message = Message(role: Role, content: Bytes, calls: seq<Call>, images: nat)

  /** The notes: in place of removed rounds, and behind a cut before and after the size of what was cut. */
  datatype Texts = Texts(rounds: Bytes, before: Bytes, after: Bytes)

  function English(): Texts {
    Texts(Ascii("Earlier tool calls and their results were removed to fit the context."),
          [0xE2, 0x80, 0xA6] + Ascii("[cut to fit the context: "),
          Ascii(" bytes in all; the rest is not shown]"))
  }

  function Note(t: Texts): Message {
    Message(User, t.rounds, [], 0)
  }

  function CallBytes(calls: seq<Call>): nat {
    if calls == [] then 0
    else CallBytes(calls[..|calls| - 1]) + |calls[|calls| - 1].name| + |calls[|calls| - 1].arguments|
  }

  function Tokens(m: Message): nat {
    (|m.content| + CallBytes(m.calls)) / BytesPerToken + m.images * ImageTokens
  }

  function Total(ms: seq<Message>): nat {
    if ms == [] then 0 else Total(ms[..|ms| - 1]) + Tokens(ms[|ms| - 1])
  }

  lemma {:induction false} TotalConcat(a: seq<Message>, b: seq<Message>)
    ensures Total(a + b) == Total(a) + Total(b)
  {
    if b == [] {
      assert a + b == a;
    } else {
      assert (a + b)[..|a + b| - 1] == a + b[..|b| - 1];
      TotalConcat(a, b[..|b| - 1]);
    }
  }

  lemma TotalOne(m: Message)
    ensures Total([m]) == Tokens(m)
  {
    assert [m][..0] == [];
  }

  lemma TotalUpdate(ms: seq<Message>, i: nat, m: Message)
    requires i < |ms|
    ensures Total(ms[i := m]) == Total(ms) - Tokens(ms[i]) + Tokens(m)
  {
    assert ms == ms[..i] + [ms[i]] + ms[i + 1..];
    assert ms[i := m] == ms[..i] + [m] + ms[i + 1..];
    TotalConcat(ms[..i] + [ms[i]], ms[i + 1..]);
    TotalConcat(ms[..i] + [m], ms[i + 1..]);
    TotalConcat(ms[..i], [ms[i]]);
    TotalConcat(ms[..i], [m]);
    TotalOne(ms[i]);
    TotalOne(m);
  }

  /** The latest assistant message, or the length. */
  function LastRound(ms: seq<Message>): (i: nat)
    ensures i <= |ms|
    ensures i < |ms| ==> ms[i].role.Assistant? && forall j | i < j < |ms| :: !ms[j].role.Assistant?
    ensures i == |ms| ==> forall j | 0 <= j < |ms| :: !ms[j].role.Assistant?
  {
    if ms == [] then 0
    else if ms[|ms| - 1].role.Assistant? then |ms| - 1
    else
      var i := LastRound(ms[..|ms| - 1]);
      if i == |ms| - 1 then |ms| else i
  }

  /** The latest assistant message is the only one with no assistant message after it. */
  lemma LastRoundIs(ms: seq<Message>, i: nat)
    requires i <= |ms| && (i < |ms| ==> ms[i].role.Assistant?)
    requires forall j | i < j < |ms| :: !ms[j].role.Assistant?
    requires i == |ms| ==> forall j | 0 <= j < |ms| :: !ms[j].role.Assistant?
    ensures LastRound(ms) == i
  {
  }

  // ---------------------------------------------------------------- shapes

  /** The same messages in the same order; only results of tools may have another content. */
  ghost predicate SameButResults(a: seq<Message>, b: seq<Message>) {
    |a| == |b| && forall i | 0 <= i < |a| :: Alike(a[i], b[i])
  }

  predicate Alike(m: Message, n: Message) {
    n == m.(content := n.content) && (m.role.Tool? || n.content == m.content)
  }

  /** Where removal starts: behind the request, or behind the note of an earlier removal. */
  function Start(t: Texts, ms: seq<Message>): (start: nat)
    ensures start == 2 || (start == 3 && |ms| > 2)
  {
    if |ms| > 2 && ms[2].content == t.rounds then 3 else 2
  }

  /** The messages with those up to end replaced by the note. */
  function Without(t: Texts, ms: seq<Message>, end: nat): seq<Message>
    requires Start(t, ms) <= end && (end == Start(t, ms) || end <= |ms|)
  {
    if end == Start(t, ms) then ms else ms[..2] + [Note(t)] + ms[end..]
  }

  /** The tokens of the messages removed up to end. */
  function Removed(t: Texts, ms: seq<Message>, end: nat): nat {
    if Start(t, ms) < end <= |ms| then Total(ms[Start(t, ms)..end]) else 0
  }

  /** What the note in place of another one costs. */
  function Correction(t: Texts, ms: seq<Message>, end: nat): int {
    if end > Start(t, ms) == 3 then Tokens(ms[2]) - Tokens(Note(t)) else 0
  }

  /** Where the latest round is after the removal. */
  function Moved(t: Texts, ms: seq<Message>, end: nat, round: nat): int {
    if end == Start(t, ms) then round else round - end + 3
  }

  // ---------------------------------------------------------------- cutting

  /** The note behind a cut. */
  function CutNote(t: Texts, size: nat): Bytes {
    t.before + Ascii(Decimal(size)) + t.after
  }

  /** How much of a text may stay so that over tokens go, and no character is split. */
  function KeepBytes(content: Bytes, over: nat): (keep: nat)
    ensures keep <= |content|
    ensures keep > 0 ==> keep <= |content| - over * BytesPerToken
    ensures 0 < keep < |content| ==> RuneStart(content[keep])
    ensures forall k | keep < k <= |content| - over * BytesPerToken && k < |content| :: !RuneStart(content[k])
  {
    if over * BytesPerToken >= |content| then 0 else BackToStart(content, |content| - over * BytesPerToken)
  }

  function BackToStart(content: Bytes, keep: nat): (k: nat)
    requires keep <= |content|
    ensures k <= keep && (0 < k < |content| ==> RuneStart(content[k]))
    ensures forall j | k < j <= keep && j < |content| :: !RuneStart(content[j])
  {
    if keep == 0 || keep == |content| || RuneStart(content[keep]) then keep else BackToStart(content, keep - 1)
  }

  function Cut(t: Texts, content: Bytes, over: nat): Bytes {
    content[..KeepBytes(content, over)] + CutNote(t, |content|)
  }

  lemma EllipsisValid()
    ensures Valid([0xE2, 0x80, 0xA6])
  {
    var ellipsis: Bytes := [0xE2, 0x80, 0xA6];
    assert RuneLength(ellipsis) == 3 && ellipsis[3..] == [];
  }

  lemma EnglishValid()
    ensures Valid(English().rounds) && Valid(English().before) && Valid(English().after)
  {
    EllipsisValid();
    AsciiValid("Earlier tool calls and their results were removed to fit the context.");
    AsciiValid("[cut to fit the context: ");
    AsciiValid(" bytes in all; the rest is not shown]");
    ConcatValid([0xE2, 0x80, 0xA6], Ascii("[cut to fit the context: "));
  }

  /** A cut never splits a character. */
  lemma CutIsValid(t: Texts, content: Bytes, over: nat)
    requires Valid(content) && Valid(t.before) && Valid(t.after)
    ensures Valid(Cut(t, content, over)) && Valid(content[..KeepBytes(content, over)])
  {
    var keep := KeepBytes(content, over);
    if keep == 0 {
      assert content[..0] == [];
    } else {
      CutValid(content, keep);
    }
    AsciiValid(Decimal(|content|));
    ConcatValid(t.before, Ascii(Decimal(|content|)));
    ConcatValid(t.before + Ascii(Decimal(|content|)), t.after);
    ConcatValid(content[..keep], CutNote(t, |content|));
  }

  /** By how many bytes a cut is moved back to where a character starts. */
  function Rounding(content: Bytes, over: nat): nat
    requires Valid(content)
  {
    if 0 < over && over * BytesPerToken < |content| then Offset(content, |content| - over * BytesPerToken) else 0
  }

  /** A cut takes three bytes a token, all it has if that is less, and at most three more. */
  lemma CutTakes(content: Bytes, over: nat)
    requires Valid(content)
    ensures Rounding(content, over) <= 3
    ensures |content| - KeepBytes(content, over) ==
              (if over * BytesPerToken < |content| then over * BytesPerToken else |content|) + Rounding(content, over)
  {
    if 0 < over && over * BytesPerToken < |content| {
      var wanted := |content| - over * BytesPerToken;
      OffsetMeans(content, wanted);
      BackIs(content, wanted, wanted - Offset(content, wanted));
    }
  }

  lemma {:induction false} BackIs(content: Bytes, keep: nat, start: nat)
    requires start <= keep < |content| && RuneStart(content[start])
    requires forall j | start < j <= keep :: Continues(content[j])
    ensures BackToStart(content, keep) == start
  {
    if start < keep {
      BackIs(content, keep - 1, start);
    }
  }

  /**
   The note makes a cut result longer than it was if and only if it is longer than what is taken: three bytes a token, or
   the whole result, and the rounding.
   */
  lemma CutGrowsExactly(t: Texts, content: Bytes, over: nat)
    requires Valid(content)
    ensures |Cut(t, content, over)| > |content| <==>
              (if over * BytesPerToken < |content| then over * BytesPerToken else |content|) + Rounding(content, over)
              < |t.before| + |Decimal(|content|)| + |t.after|
  {
    CutTakes(content, over);
  }

  /** The results from the round on. */
  function Results(ms: seq<Message>, round: nat): set<nat> {
    set i | round <= i < |ms| && ms[i].role.Tool?
  }

  /** Those not cut yet. */
  function Rest(ms: seq<Message>, round: nat, order: seq<nat>): set<nat> {
    if order == [] then Results(ms, round)
    else Rest(ms, round, order[..|order| - 1]) - {order[|order| - 1]}
  }

  /** Each cut takes a longest of the results not cut yet. */
  predicate LongestFirst(ms: seq<Message>, round: nat, order: seq<nat>) {
    order == [] ||
    var before, i := order[..|order| - 1], order[|order| - 1];
    LongestFirst(ms, round, before) && i in Rest(ms, round, before) && LongestIn(ms, Rest(ms, round, before), i)
  }

  lemma {:induction false} RestAreResults(ms: seq<Message>, round: nat, order: seq<nat>)
    ensures Rest(ms, round, order) <= Results(ms, round)
  {
    if order != [] {
      RestAreResults(ms, round, order[..|order| - 1]);
    }
  }

  predicate LongestIn(ms: seq<Message>, rest: set<nat>, i: nat) {
    i < |ms| && forall j | j in rest :: j < |ms| && |ms[j].content| <= |ms[i].content|
  }

  lemma {:induction false} LongestExists(ms: seq<Message>, rest: set<nat>)
    requires rest != {} && forall i | i in rest :: i < |ms|
    ensures exists i :: i in rest && LongestIn(ms, rest, i)
  {
    var j :| j in rest;
    if rest == {j} {
      assert LongestIn(ms, rest, j);
    } else {
      LongestExists(ms, rest - {j});
      var i :| i in rest - {j} && LongestIn(ms, rest - {j}, i);
      var longest := if |ms[i].content| < |ms[j].content| then j else i;
      assert LongestIn(ms, rest, longest);
    }
  }

  function CutMessage(t: Texts, m: Message, over: nat): Message {
    m.(content := Cut(t, m.content, over))
  }

  /** The tokens a cut counts as taken; the note it adds is not counted. */
  function Freed(m: Message, over: nat): nat {
    (|m.content| - KeepBytes(m.content, over)) / BytesPerToken
  }

  lemma CutsGrow(t: Texts, ms: seq<Message>, round: nat, over: int, order: seq<nat>, i: nat)
    requires Left(ms, over, order) > 0 && LongestFirst(ms, round, order)
    requires i in Rest(ms, round, order) && LongestIn(Cuts(t, ms, over, order), Rest(ms, round, order), i)
    ensures i < |ms| && Cuts(t, ms, over, order)[i] == ms[i]
    ensures LongestFirst(ms, round, order + [i]) && Rest(ms, round, order + [i]) == Rest(ms, round, order) - {i}
    ensures Cuts(t, ms, over, order + [i]) == Cuts(t, ms, over, order)[i := CutMessage(t, ms[i], Left(ms, over, order))]
    ensures Left(ms, over, order + [i]) == Left(ms, over, order) - Freed(ms[i], Left(ms, over, order))
    ensures AllNeeded(ms, over, order) ==> AllNeeded(ms, over, order + [i])
  {
    assert (order + [i])[..|order + [i]| - 1] == order;
    RestAreResults(ms, round, order);
    CutsElsewhere(t, ms, round, over, order);
  }

  /** What is still over after the cuts, each of which takes what the ones before left over. */
  function Left(ms: seq<Message>, over: int, order: seq<nat>): int {
    if order == [] then over
    else
      var left, i := Left(ms, over, order[..|order| - 1]), order[|order| - 1];
      if i < |ms| && left > 0 then left - Freed(ms[i], left) else left
  }

  function Cuts(t: Texts, ms: seq<Message>, over: int, order: seq<nat>): (r: seq<Message>)
    ensures |r| == |ms|
  {
    if order == [] then ms
    else
      var rest := order[..|order| - 1];
      var done, left, i := Cuts(t, ms, over, rest), Left(ms, over, rest), order[|order| - 1];
      if i < |ms| && left > 0 then done[i := CutMessage(t, ms[i], left)] else done
  }

  /** Each cut was still needed when it was made. */
  predicate AllNeeded(ms: seq<Message>, over: int, order: seq<nat>) {
    order == [] || (AllNeeded(ms, over, order[..|order| - 1]) && Left(ms, over, order[..|order| - 1]) > 0)
  }

  lemma {:induction false} CutsElsewhere(t: Texts, ms: seq<Message>, round: nat, over: int, order: seq<nat>)
    ensures forall i | i in Rest(ms, round, order) && i < |ms| :: Cuts(t, ms, over, order)[i] == ms[i]
  {
    if order != [] {
      CutsElsewhere(t, ms, round, over, order[..|order| - 1]);
    }
  }

  /** Cutting results leaves everything else as it was. */
  lemma {:induction false} CutsAlike(t: Texts, ms: seq<Message>, round: nat, over: int, order: seq<nat>)
    requires LongestFirst(ms, round, order)
    ensures SameButResults(ms, Cuts(t, ms, over, order))
  {
    if order != [] {
      var before := order[..|order| - 1];
      CutsAlike(t, ms, round, over, before);
      RestAreResults(ms, round, before);
    }
  }

  /** What the notes of the cuts cost at most. */
  function NoteTokens(t: Texts, ms: seq<Message>, order: seq<nat>): nat {
    if order == [] then 0
    else
      var i := order[|order| - 1];
      NoteTokens(t, ms, order[..|order| - 1]) + if i < |ms| then |CutNote(t, |ms[i].content|)| / BytesPerToken + 1 else 0
  }

  lemma CutCosts(t: Texts, m: Message, over: nat)
    ensures Tokens(CutMessage(t, m, over)) <= Tokens(m) - Freed(m, over) + |CutNote(t, |m.content|)| / BytesPerToken + 1
  {
    var keep, note := KeepBytes(m.content, over), |CutNote(t, |m.content|)|;
    assert |Cut(t, m.content, over)| == keep + note;
  }

  /** After the cuts the tokens are down by what was over and is not any more, but for the notes. */
  lemma {:induction false} CutsCost(t: Texts, ms: seq<Message>, round: nat, over: int, order: seq<nat>)
    requires LongestFirst(ms, round, order)
    ensures Total(Cuts(t, ms, over, order)) <= Total(ms) - (over - Left(ms, over, order)) + NoteTokens(t, ms, order)
  {
    if order != [] {
      var rest, i := order[..|order| - 1], order[|order| - 1];
      CutsCost(t, ms, round, over, rest);
      RestAreResults(ms, round, rest);
      CutsElsewhere(t, ms, round, over, rest);
      var left := Left(ms, over, rest);
      if left > 0 {
        TotalUpdate(Cuts(t, ms, over, rest), i, CutMessage(t, ms[i], left));
        CutCosts(t, ms[i], left);
      }
    }
  }

  // ---------------------------------------------------------------- the context

  function Budget(contextTokens: nat): nat {
    contextTokens - contextTokens / 4
  }

  /** The context that contextShortfall says is needed. */
  function Needed(fixed: nat): nat {
    (fixed + MinResultTokens) * 4 / 3
  }

  /** That context is enough, and when the tokens needed divide by 3 one token less is too; no smaller one is. */
  lemma NeededExactly(fixed: nat, contextTokens: nat)
    ensures fixed + MinResultTokens <= Budget(contextTokens) <==>
              contextTokens >= Needed(fixed) - if (fixed + MinResultTokens) % 3 == 0 then 1 else 0
  {
  }

  function Shorter(dropped: Bytes -> Bytes, m: Message): Message {
    if m.role.Tool? && |dropped(m.content)| < |m.content| then m.(content := dropped(m.content)) else m
  }

  /** The messages whose old results up to k are shortened, where that makes them shorter. */
  function Shortened(dropped: Bytes -> Bytes, ms: seq<Message>, k: nat): (r: seq<Message>)
    requires k <= |ms|
    ensures |r| == |ms|
  {
    if k == 0 then ms else Shortened(dropped, ms, k - 1)[k - 1 := Shorter(dropped, ms[k - 1])]
  }

  lemma {:induction false} ShortenedMeans(dropped: Bytes -> Bytes, ms: seq<Message>, k: nat)
    requires k <= |ms|
    ensures |Shortened(dropped, ms, k)| == |ms|
    ensures forall i | 0 <= i < |ms| :: Shortened(dropped, ms, k)[i] == if i < k then Shorter(dropped, ms[i]) else ms[i]
  {
    if k > 0 {
      ShortenedMeans(dropped, ms, k - 1);
    }
  }

  /** With results up to k shortened, a prompt that used so many tokens is still over the budget. */
  predicate TooMuch(dropped: Bytes -> Bytes, ms: seq<Message>, k: nat, used: int, budget: int)
    requires k <= |ms|
  {
    used + Total(Shortened(dropped, ms, k)) - Total(ms) > budget
  }

  /** No fewer than k results were enough. */
  predicate TooMuchUpTo(dropped: Bytes -> Bytes, ms: seq<Message>, k: nat, used: int, budget: int)
    requires k <= |ms|
  {
    k == 0 || (TooMuchUpTo(dropped, ms, k - 1, used, budget) && TooMuch(dropped, ms, k - 1, used, budget))
  }

  lemma {:induction false} TooMuchBefore(dropped: Bytes -> Bytes, ms: seq<Message>, k: nat, used: int, budget: int, j: nat)
    requires j < k <= |ms| && TooMuchUpTo(dropped, ms, k, used, budget)
    ensures TooMuch(dropped, ms, j, used, budget)
  {
    if j < k - 1 {
      TooMuchBefore(dropped, ms, k - 1, used, budget, j);
    }
  }

  lemma ShortenStep(dropped: Bytes -> Bytes, ms: seq<Message>, i: nat)
    requires i < |ms|
    ensures Shortened(dropped, ms, i)[i] == ms[i]
    ensures Total(Shortened(dropped, ms, i + 1)) ==
            Total(Shortened(dropped, ms, i)) - Tokens(ms[i]) + Tokens(Shorter(dropped, ms[i]))
  {
    ShortenedMeans(dropped, ms, i);
    TotalUpdate(Shortened(dropped, ms, i), i, Shorter(dropped, ms[i]));
  }

  class TurnLoop {
    const texts: Texts
    var messages: seq<Message>
    var contextTokens: nat
    /** droppedResult: what of a result stays when it is shortened. */
    const dropped: Bytes -> Bytes

    constructor (texts: Texts, messages: seq<Message>, dropped: Bytes -> Bytes)
      ensures this.texts == texts && this.messages == messages && this.dropped == dropped && contextTokens == 0
    {
      this.texts, this.messages, this.dropped, contextTokens := texts, messages, dropped, 0;
    }

    method LastRoundIndex() returns (i: nat)
      ensures i == LastRound(messages)
    {
      i := |messages|;
      while i > 0 && !messages[i - 1].role.Assistant?
        invariant i <= |messages|
        invariant forall j | i <= j < |messages| :: !messages[j].role.Assistant?
      {
        i := i - 1;
      }
      LastRoundIs(messages, if i == 0 then |messages| else i - 1);
      i := if i == 0 then |messages| else i - 1;
    }

    /** The tokens of a prompt, tools included. */
    method Used(toolBytes: nat) returns (used: nat)
      ensures used == toolBytes / SchemaBytesPerToken + Total(messages)
    {
      used := toolBytes / SchemaBytesPerToken;
      var i := 0;
      while i < |messages|
        invariant 0 <= i <= |messages|
        invariant used == toolBytes / SchemaBytesPerToken + Total(messages[..i])
      {
        assert messages[..i + 1][..i] == messages[..i];
        used := used + Tokens(messages[i]);
        i := i + 1;
      }
      assert messages[..|messages|] == messages;
    }

    /** Shortens results before the round, oldest first, while the prompt does not fit. */
    method ShortenResults(used: int, budget: int, round: nat) returns (left: int, k: nat)
      requires round <= |messages|
      modifies this`messages
      ensures k <= round && messages == Shortened(dropped, old(messages), k)
      ensures left == used + Total(messages) - Total(old(messages))
      ensures k < round ==> left <= budget
      ensures TooMuchUpTo(dropped, old(messages), k, used, budget)
    {
      ghost var before := messages;
      left := used;
      k := 0;
      var i := 0;
      while i < round
        invariant 0 <= i <= round <= |before| && k == i
        invariant messages == Shortened(dropped, before, i)
        invariant left == used + Total(messages) - Total(before)
        invariant TooMuchUpTo(dropped, before, i, used, budget)
      {
        if left <= budget {
          return;
        }
        ShortenStep(dropped, before, i);
        var m := messages[i];
        left := left - Tokens(m) + Tokens(Shorter(dropped, m));
        messages := messages[i := Shorter(dropped, m)];
        i := i + 1;
        k := i;
      }
    }

    /** Where removal ends: at the oldest round with which the prompt fits, or at the latest one; and what is left. */
    method RoundsEnd(used: int, budget: int, round: nat) returns (left: int, end: nat)
      requires round <= |messages|
      ensures Start(texts, messages) <= end && (end > Start(texts, messages) ==> end <= round)
      ensures end > Start(texts, messages) && end < round ==> messages[end].role.Assistant?
      ensures left == used - Removed(texts, messages, end) && (end < round ==> left <= budget)
      ensures forall j | Start(texts, messages) <= j < end && messages[j].role.Assistant? ::
                used - Removed(texts, messages, j) > budget
    {
      left, end := used, Start(texts, messages);
      while end < round && (left > budget || !messages[end].role.Assistant?)
        invariant Start(texts, messages) <= end && (end > Start(texts, messages) ==> end <= round)
        invariant left == used - Removed(texts, messages, end)
        invariant forall j | Start(texts, messages) <= j < end && messages[j].role.Assistant? ::
                    used - Removed(texts, messages, j) > budget
      {
        RemovedOne(texts, messages, end);
        left := left - Tokens(messages[end]);
        end := end + 1;
      }
    }

    /**
     dropRounds: removes whole rounds behind the request, oldest first and no more than needed, never the latest.
     The tokens it answers are those of the messages, but for what a note in an earlier note's place costs.
     */
    method DropRounds(used: int, budget: int, round: nat) returns (left: int, next: int, ghost end: nat)
      requires round == LastRound(messages)
      modifies this`messages
      ensures Start(texts, old(messages)) <= end && (end > Start(texts, old(messages)) ==> end <= round)
      ensures messages == Without(texts, old(messages), end) && next == Moved(texts, old(messages), end, round)
      ensures end > Start(texts, old(messages)) && end < |old(messages)| ==> old(messages)[end].role.Assistant?
      ensures end < round ==> used - Removed(texts, old(messages), end) <= budget
      ensures left == used + Total(messages) - Total(old(messages)) + Correction(texts, old(messages), end)
      ensures forall j | Start(texts, old(messages)) <= j < end && old(messages)[j].role.Assistant? ::
                used - Removed(texts, old(messages), j) > budget
    {
      var i;
      left, i := RoundsEnd(used, budget, round);
      end := i;
      next := round;
      if i > Start(texts, messages) {
        WithoutTotal(texts, messages, i);
        EarlierNote(texts, messages, i);
        if Start(texts, messages) == 2 {
          left := left + Tokens(Note(texts));
        }
        messages := messages[..2] + [Note(texts)] + messages[i..];
        next := round - (i - 2) + 1;
      }
    }

    /** cutLatest: takes over tokens from the results of the round, longest first; ties in any order. */
    method CutLatest(round: nat, over: int) returns (ghost order: seq<nat>)
      requires round <= |messages|
      modifies this`messages
      ensures LongestFirst(old(messages), round, order) && AllNeeded(old(messages), over, order)
      ensures messages == Cuts(texts, old(messages), over, order)
      ensures Left(old(messages), over, order) <= 0 || Rest(old(messages), round, order) == {}
    {
      ghost var before := messages;
      var rest := set i | round <= i < |messages| && messages[i].role.Tool?;
      var left := over;
      order := [];
      while rest != {} && left > 0
        invariant LongestFirst(before, round, order) && AllNeeded(before, over, order)
        invariant rest == Rest(before, round, order)
        invariant messages == Cuts(texts, before, over, order) && left == Left(before, over, order)
      {
        RestAreResults(before, round, order);
        LongestExists(messages, rest);
        var i :| i in rest && LongestIn(messages, rest, i);
        CutsGrow(texts, before, round, over, order, i);
        left := CutOne(i, left);
        rest := rest - {i};
        order := order + [i];
      }
    }

    method CutOne(i: nat, over: int) returns (left: int)
      requires i < |messages| && over > 0
      modifies this`messages
      ensures messages == old(messages)[i := CutMessage(texts, old(messages)[i], over)]
      ensures left == over - Freed(old(messages)[i], over)
    {
      var m := messages[i];
      left := over - (|m.content| - KeepBytes(m.content, over)) / BytesPerToken;
      messages := messages[i := m.(content := Cut(texts, m.content, over))];
    }

    /**
     fitContext.  Nothing changes while the context is not known.  What it shortened, removed and cut is answered,
     and FitKeepsForm says what the messages then are.
     */
    method FitContext(toolBytes: nat) returns (ghost k: nat, ghost end: nat, ghost over: int, ghost order: seq<nat>)
      modifies this`messages
      ensures Budget(contextTokens) == 0 ==> messages == old(messages)
      ensures Fits(texts, dropped, old(messages), k, end, order)
      ensures messages == Fitted(texts, dropped, old(messages), k, end, over, order)
      ensures Budget(contextTokens) > 0 ==>
                var short := Shortened(dropped, old(messages), k);
                var left := Left(Without(texts, short, end), over, order);
                toolBytes / SchemaBytesPerToken + Total(messages) + Correction(texts, short, end)
                <= Budget(contextTokens) + (if left > 0 then left else 0) + NoteTokens(texts, Without(texts, short, end), order)
      ensures over <= 0 ==> order == []
      ensures Left(Without(texts, Shortened(dropped, old(messages), k), end), over, order) > 0 ==>
                var without := Without(texts, Shortened(dropped, old(messages), k), end);
                Rest(without, LastRound(without), order) == {}
      ensures toolBytes / SchemaBytesPerToken + Total(old(messages)) <= Budget(contextTokens) ==> messages == old(messages)
    {
      ghost var before := messages;
      k, end, over, order := 0, Start(texts, messages), 0, [];
      var budget := Budget(contextTokens);
      if budget == 0 {
        return;
      }
      var used := Used(toolBytes);
      var round := LastRoundIndex();
      var left, shortened := ShortenResults(used, budget, round);
      k := shortened;
      ghost var short := messages;
      ShortenedAlike(dropped, before, k);
      AlikeRound(before, short);
      NothingNeeded(dropped, before, k, used, budget);
      end := Start(texts, short);
      if shortened < round {
        return;
      }
      end, over, order := RemoveAndCut(left, budget, round);
      ghost var without := Without(texts, short, end);
      CutsCost(texts, without, LastRound(without), over, order);
      if over <= 0 {
        NeededOver(without, over, order);
      }
    }

    /** The rounds removed, and where the latest one is then. */
    method RemoveRounds(used: int, budget: int, round: nat) returns (over: int, next: nat, ghost end: nat)
      requires round == LastRound(messages)
      modifies this`messages
      ensures Start(texts, old(messages)) <= end
      ensures end > Start(texts, old(messages)) ==> end <= round && (end < |old(messages)| ==> old(messages)[end].role.Assistant?)
      ensures messages == Without(texts, old(messages), end) && next == LastRound(messages)
      ensures over == used + Total(messages) - Total(old(messages)) + Correction(texts, old(messages), end) - budget
    {
      ghost var before := messages;
      var left, moved;
      left, moved, end := DropRounds(used, budget, round);
      MovedIsLatest(texts, before, end);
      next, over := moved, left - budget;
    }

    method RemoveAndCut(used: int, budget: int, round: nat)
      returns (ghost end: nat, ghost over: int, ghost order: seq<nat>)
      requires round == LastRound(messages)
      modifies this`messages
      ensures Start(texts, old(messages)) <= end
      ensures end > Start(texts, old(messages)) ==> end <= round && (end < |old(messages)| ==> old(messages)[end].role.Assistant?)
      ensures messages == Cuts(texts, Without(texts, old(messages), end), over, order)
      ensures var without := Without(texts, old(messages), end);
              && LongestFirst(without, LastRound(without), order)
              && over == used + Total(without) - Total(old(messages)) + Correction(texts, old(messages), end) - budget
              && AllNeeded(without, over, order)
              && (Left(without, over, order) <= 0 || Rest(without, LastRound(without), order) == {})
    {
      var left, next;
      left, next, end := RemoveRounds(used, budget, round);
      over := left;
      order := CutLatest(next, left);
    }
  }

  lemma RemovedOne(t: Texts, ms: seq<Message>, end: nat)
    requires Start(t, ms) <= end < |ms|
    ensures Removed(t, ms, end + 1) == Removed(t, ms, end) + Tokens(ms[end])
  {
    var more := ms[Start(t, ms)..end + 1];
    assert more[..|more| - 1] == ms[Start(t, ms)..end] && more[|more| - 1] == ms[end];
    assert Total(more) == Total(ms[Start(t, ms)..end]) + Tokens(ms[end]);
  }

  lemma {:induction false} NeededOver(ms: seq<Message>, over: int, order: seq<nat>)
    requires AllNeeded(ms, over, order) && over <= 0
    ensures order == []
  {
    if order != [] {
      NeededOver(ms, over, order[..|order| - 1]);
    }
  }

  lemma NothingNeeded(dropped: Bytes -> Bytes, ms: seq<Message>, k: nat, used: int, budget: int)
    requires k <= |ms| && TooMuchUpTo(dropped, ms, k, used, budget)
    ensures used <= budget ==> k == 0
  {
    if k > 0 {
      TooMuchBefore(dropped, ms, k, used, budget, 0);
    }
  }

  lemma WithoutTotal(t: Texts, ms: seq<Message>, end: nat)
    requires Start(t, ms) < end <= |ms|
    ensures Total(Without(t, ms, end)) == Total(ms) - Removed(t, ms, end) + Tokens(Note(t)) - Total(ms[2..Start(t, ms)])
  {
    var start := Start(t, ms);
    var a, b, c, d := ms[..2], ms[2..start], ms[start..end], ms[end..];
    Parts(ms, 2, start, end);
    FourParts(a, b, c, d);
    TotalConcat(a + [Note(t)], d);
    TotalConcat(a, [Note(t)]);
    TotalOne(Note(t));
  }

  lemma Parts(ms: seq<Message>, p: nat, q: nat, r: nat)
    requires p <= q <= r <= |ms|
    ensures ms == ms[..p] + (ms[p..q] + (ms[q..r] + ms[r..]))
  {
  }

  lemma FourParts(a: seq<Message>, b: seq<Message>, c: seq<Message>, d: seq<Message>)
    ensures Total(a + (b + (c + d))) == Total(a) + Total(b) + Total(c) + Total(d)
  {
    TotalConcat(a, b + (c + d));
    TotalConcat(b, c + d);
    TotalConcat(c, d);
  }

  /** An earlier note is the only message before the start that is removed. */
  lemma EarlierNote(t: Texts, ms: seq<Message>, end: nat)
    requires Start(t, ms) < end <= |ms|
    ensures Total(ms[2..Start(t, ms)]) == if Start(t, ms) == 3 then Tokens(ms[2]) else 0
  {
    if Start(t, ms) == 3 {
      assert ms[2..3] == [ms[2]];
      TotalOne(ms[2]);
    }
  }

  // ---------------------------------------------------------------- what fitting keeps

  function Fitted(t: Texts, dropped: Bytes -> Bytes, ms: seq<Message>, k: nat, end: nat, over: int, order: seq<nat>): seq<Message>
    requires k <= |ms|
    requires var short := Shortened(dropped, ms, k); Start(t, short) <= end && (end == Start(t, short) || end <= |ms|)
  {
    Cuts(t, Without(t, Shortened(dropped, ms, k), end), over, order)
  }

  /** Whole rounds before the latest are removed, and only the latest round's results are cut. */
  ghost predicate Fits(t: Texts, dropped: Bytes -> Bytes, ms: seq<Message>, k: nat, end: nat, order: seq<nat>) {
    && k <= LastRound(ms)
    && var short := Shortened(dropped, ms, k);
       && Start(t, short) <= end
       && (end > Start(t, short) ==> end <= LastRound(ms) && (end < |ms| ==> ms[end].role.Assistant?))
       && LongestFirst(Without(t, short, end), LastRound(Without(t, short, end)), order)
  }

  lemma ShortenedAlike(dropped: Bytes -> Bytes, ms: seq<Message>, k: nat)
    requires k <= |ms|
    ensures SameButResults(ms, Shortened(dropped, ms, k))
  {
    ShortenedMeans(dropped, ms, k);
  }

  lemma AlikeRound(a: seq<Message>, b: seq<Message>)
    requires SameButResults(a, b)
    ensures LastRound(a) == LastRound(b)
  {
    assert forall i | 0 <= i < |a| :: Alike(a[i], b[i]) && a[i].role == b[i].role;
    LastRoundIs(b, LastRound(a));
  }

  lemma MovedIsLatest(t: Texts, ms: seq<Message>, end: nat)
    requires Start(t, ms) <= end && (end > Start(t, ms) ==> end <= LastRound(ms))
    ensures LastRound(Without(t, ms, end)) == Moved(t, ms, end, LastRound(ms))
  {
    if end > Start(t, ms) {
      var r, round := Without(t, ms, end), LastRound(ms);
      assert forall i | 3 <= i < |r| :: r[i] == ms[i - 3 + end];
      LastRoundIs(r, round - end + 3);
    }
  }

  // ---------------------------------------------------------------- text stays text

  ghost predicate AllText(ms: seq<Message>) {
    forall i | 0 <= i < |ms| :: Valid(ms[i].content)
  }

  lemma CutOneText(t: Texts, ms: seq<Message>, done: seq<Message>, i: nat, over: nat)
    requires Valid(t.before) && Valid(t.after) && AllText(ms) && AllText(done) && |done| == |ms| && i < |ms|
    ensures AllText(done[i := CutMessage(t, ms[i], over)])
  {
    CutIsValid(t, ms[i].content, over);
  }

  /** Cutting valid text leaves valid text. */
  lemma {:induction false} CutsValid(t: Texts, ms: seq<Message>, over: int, order: seq<nat>)
    requires Valid(t.before) && Valid(t.after) && AllText(ms)
    ensures AllText(Cuts(t, ms, over, order))
  {
    if order != [] {
      var rest := order[..|order| - 1];
      CutsValid(t, ms, over, rest);
      var left, i := Left(ms, over, rest), order[|order| - 1];
      if i < |ms| && left > 0 {
        CutOneText(t, ms, Cuts(t, ms, over, rest), i, left);
      }
    }
  }

  lemma ShortenedText(dropped: Bytes -> Bytes, ms: seq<Message>, k: nat)
    requires k <= |ms| && AllText(ms) && forall content | Valid(content) :: Valid(dropped(content))
    ensures AllText(Shortened(dropped, ms, k))
  {
    ShortenedMeans(dropped, ms, k);
  }

  /** A chat of valid text, fitted with notes of valid text such as the program's, is valid text again. */
  lemma FitKeepsText(t: Texts, dropped: Bytes -> Bytes, ms: seq<Message>, k: nat, end: nat, over: int, order: seq<nat>)
    requires Valid(t.rounds) && Valid(t.before) && Valid(t.after)
    requires Fits(t, dropped, ms, k, end, order) && AllText(ms)
    requires forall content | Valid(content) :: Valid(dropped(content))
    ensures AllText(Fitted(t, dropped, ms, k, end, over, order))
  {
    var short := Shortened(dropped, ms, k);
    ShortenedText(dropped, ms, k);
    assert AllText(Without(t, short, end));
    CutsValid(t, Without(t, short, end), over, order);
  }

  /** Where message i of the fitted chat comes from. */
  function Origin(t: Texts, ms: seq<Message>, end: nat, i: nat): int {
    if end == Start(t, ms) || i < 2 then i else i - 3 + end
  }

  lemma OriginAlike(t: Texts, ms: seq<Message>, short: seq<Message>, done: seq<Message>, end: nat, i: nat)
    requires SameButResults(ms, short) && Start(t, short) <= end && (end > Start(t, short) ==> end <= |short|)
    requires SameButResults(Without(t, short, end), done) && i < |done| && (end > Start(t, short) ==> i != 2)
    ensures 0 <= Origin(t, short, end, i) < |ms| && Alike(ms[Origin(t, short, end, i)], done[i])
  {
    var without, o := Without(t, short, end), Origin(t, short, end, i);
    assert Alike(without[i], done[i]);
    assert without[i] == short[o];
    assert Alike(ms[o], short[o]);
  }

  lemma FitSteps(t: Texts, dropped: Bytes -> Bytes, ms: seq<Message>, k: nat, end: nat, over: int, order: seq<nat>)
    requires Fits(t, dropped, ms, k, end, order)
    ensures var short := Shortened(dropped, ms, k);
            && SameButResults(ms, short) && LastRound(short) == LastRound(ms)
            && SameButResults(Without(t, short, end), Fitted(t, dropped, ms, k, end, over, order))
            && LastRound(Fitted(t, dropped, ms, k, end, over, order)) == Moved(t, short, end, LastRound(ms))
  {
    var short := Shortened(dropped, ms, k);
    ShortenedAlike(dropped, ms, k);
    AlikeRound(ms, short);
    MovedIsLatest(t, short, end);
    CutsAlike(t, Without(t, short, end), LastRound(Without(t, short, end)), over, order);
    AlikeRound(Without(t, short, end), Fitted(t, dropped, ms, k, end, over, order));
  }

  /**
   Every message of the fitted chat but the note is one of the chat, with its role, calls and images, and with its
   content unless it is a result: the system message and the request at the start, and from the oldest kept round
   on all of them in order.  The latest round is the latest round.
   */
  lemma FitKeepsForm(t: Texts, dropped: Bytes -> Bytes, ms: seq<Message>, k: nat, end: nat, over: int, order: seq<nat>, i: nat)
    requires Fits(t, dropped, ms, k, end, order) && i < |Fitted(t, dropped, ms, k, end, over, order)|
    ensures var (short, done) := (Shortened(dropped, ms, k), Fitted(t, dropped, ms, k, end, over, order));
            if end > Start(t, short) && i == 2 then done[i] == Note(t)
            else 0 <= Origin(t, short, end, i) < |ms| && Alike(ms[Origin(t, short, end, i)], done[i])
    ensures var (short, done) := (Shortened(dropped, ms, k), Fitted(t, dropped, ms, k, end, over, order));
            && |done| == (if end > Start(t, short) then |ms| - end + 3 else |ms|)
            && LastRound(done) == Moved(t, short, end, LastRound(ms))
            && |done| - LastRound(done) == |ms| - LastRound(ms)
  {
    var short, done := Shortened(dropped, ms, k), Fitted(t, dropped, ms, k, end, over, order);
    FitSteps(t, dropped, ms, k, end, over, order);
    if end > Start(t, short) && i == 2 {
      assert Alike(Without(t, short, end)[2], done[2]);
    } else {
      OriginAlike(t, ms, short, done, end, i);
    }
  }

  /** Behind the note, the assistant message a result answers is the one it answered: no result is without its call. */
  lemma ResultsKeepTheirCall(
    t: Texts, dropped: Bytes -> Bytes, ms: seq<Message>, k: nat, end: nat, over: int, order: seq<nat>, i: nat)
    requires Fits(t, dropped, ms, k, end, order) && end > Start(t, Shortened(dropped, ms, k))
    requires 2 < i < |Fitted(t, dropped, ms, k, end, over, order)|
    requires Fitted(t, dropped, ms, k, end, over, order)[i].role.Tool?
    ensures var done := Fitted(t, dropped, ms, k, end, over, order);
            end < i - 3 + end < |ms| &&
            3 <= LastRound(done[..i]) < i && LastRound(done[..i]) == LastRound(ms[..i - 3 + end]) - end + 3
  {
    var done := Fitted(t, dropped, ms, k, end, over, order);
    forall j | 3 <= j < |done| ensures |done| == |ms| - end + 3 && done[j].role == ms[j - 3 + end].role {
      FitKeepsForm(t, dropped, ms, k, end, over, order, j);
    }
    CallerMoves(ms, done, end, i);
  }

  lemma CallerMoves(ms: seq<Message>, done: seq<Message>, end: nat, i: nat)
    requires end < |ms| && ms[end].role.Assistant? && |done| == |ms| - end + 3
    requires forall j | 3 <= j < |done| :: done[j].role == ms[j - 3 + end].role
    requires 3 <= i < |done| && done[i].role.Tool?
    ensures end < i - 3 + end < |ms|
    ensures 3 <= LastRound(done[..i]) < i && LastRound(done[..i]) == LastRound(ms[..i - 3 + end]) - end + 3
  {
    var before := ms[..i - 3 + end];
    var caller := LastRound(before);
    assert before[end] == ms[end];
    forall j | caller - end + 3 < j < i ensures !done[..i][j].role.Assistant? {
      assert before[j - 3 + end] == ms[j - 3 + end];
    }
    LastRoundIs(done[..i], caller - end + 3);
  }
}
