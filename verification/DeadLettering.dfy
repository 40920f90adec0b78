/**
 Dead-lettering configuration and retry counting (`dead_lettering.py`).

 A configuration value is a dict or a leaf; of either what the code asks for is kept: the text `str(v)`
 gives, and of a leaf the number `int(v)` gives, if it does not raise.
 */
module DeadLettering {
  import opened Wrappers

  datatype Value =
    | Dict(entries: map<string, Value>, text: string)
    | Leaf(text: string, number: Option<int>)
    | NoneValue

  type Mapping = map<string, Value>

  datatype OnError = Requeue | DeadLetter

  datatype Config = Config(onError: OnError, deadLetterQueue: Option<string>, maxRetries: int)

  const QUEUE_ARGS_KEYS: seq<string> := ["queue_arguments", "queue_args", "queue_declare_arguments"]

  // ---------------------------------------------------------------- text

  predicate IsSpace(c: char) {
    c == ' ' || ('\t' <= c <= '\r') || ('\U{1c}' <= c <= '\U{1f}')
  }

  function StripLeft(s: string): string {
    if s != [] && IsSpace(s[0]) then StripLeft(s[1..]) else s
  }

  function StripRight(s: string): string {
    if s != [] && IsSpace(s[|s| - 1]) then StripRight(s[..|s| - 1]) else s
  }

  function LowerChar(c: char): char {
    if 'A' <= c <= 'Z' then c - 'A' + 'a' else c
  }

  function Lower(s: string): (r: string)
    ensures |r| == |s| && forall i :: 0 <= i < |s| ==> r[i] == LowerChar(s[i])
  {
    if s == [] then [] else [LowerChar(s[0])] + Lower(s[1..])
  }

  /** `text.strip().lower()`. */
  function Normal(text: string): string {
    Lower(StripLeft(StripRight(text)))
  }

  function Text(v: Value): string {
    match v
    case Leaf(text, _) => text
    case NoneValue => "None"
    case Dict(_, text) => text
  }

  function Number(v: Value): Option<int> {
    if v.Leaf? then v.number else None
  }

  // ---------------------------------------------------------------- configuration

  /** The first of the keys, from position `from` on, that holds a dict. */
  function DictAt(destination: Mapping, keys: seq<string>): (r: Mapping)
    ensures (forall k :: k in keys ==> k !in destination || !destination[k].Dict?) ==> r == map[]
    ensures forall i :: 0 <= i < |keys| && keys[i] in destination && destination[keys[i]].Dict?
              && (forall j :: 0 <= j < i ==> keys[j] !in destination || !destination[keys[j]].Dict?)
              ==> r == destination[keys[i]].entries
  {
    if keys == [] then map[]
    else if keys[0] in destination && destination[keys[0]].Dict? then destination[keys[0]].entries
    else
      assert forall i :: 0 < i < |keys| ==> keys[i] == keys[1..][i - 1];
      DictAt(destination, keys[1..])
  }

  /** `resolve_queue_arguments`. */
  method ResolveQueueArguments(destination: Mapping) returns (args: Mapping)
    ensures args == DictAt(destination, QUEUE_ARGS_KEYS)
  {
    for i := 0 to |QUEUE_ARGS_KEYS|
      invariant forall j :: 0 <= j < i ==>
        QUEUE_ARGS_KEYS[j] !in destination || !destination[QUEUE_ARGS_KEYS[j]].Dict?
    {
      var key := QUEUE_ARGS_KEYS[i];
      if key in destination && destination[key].Dict? {
        return destination[key].entries;
      }
    }
    return map[];
  }

  /**
   `resolve_dead_lettering_config`: whatever the raw configuration holds, the limit is the configured
   number when that is one and at least 1, and 1 otherwise; the mode is one of the two, "dead_letter" only
   when it was asked for; the queue is the configured one, under the name its value prints as.
   */
  function ResolveConfig(destination: Mapping): (cfg: Config)
    ensures cfg.maxRetries >= 1
    ensures var args := DictAt(destination, QUEUE_ARGS_KEYS);
            && (forall n :: n > 1 ==>
                  (cfg.maxRetries == n <==> "max_retries" in args && Number(args["max_retries"]) == Some(n)))
            && (cfg.onError.DeadLetter? ==> "on_error" in args)
            && (cfg.deadLetterQueue.Some? <==> "dead_letter_queue" in args && !args["dead_letter_queue"].NoneValue?)
            && (cfg.deadLetterQueue.Some? ==> cfg.deadLetterQueue.value == Text(args["dead_letter_queue"]))
  {
    var args := DictAt(destination, QUEUE_ARGS_KEYS);
    var onError := if "on_error" in args && Normal(Text(args["on_error"])) == "dead_letter" then DeadLetter else Requeue;
    var queue := if "dead_letter_queue" in args && !args["dead_letter_queue"].NoneValue?
                 then Some(Text(args["dead_letter_queue"])) else None;
    var parsed := if "max_retries" in args then Number(args["max_retries"]) else Some(1);
    var retries := if parsed.Some? then parsed.value else 1;
    Config(onError, queue, if retries < 1 then 1 else retries)
  }

  /** The canonical key comes first, then its two aliases; a key that holds anything but a dict is passed over. */
  lemma KeysInOrder(destination: Mapping)
    ensures DictAt(destination, QUEUE_ARGS_KEYS) ==
            if "queue_arguments" in destination && destination["queue_arguments"].Dict?
            then destination["queue_arguments"].entries
            else if "queue_args" in destination && destination["queue_args"].Dict?
            then destination["queue_args"].entries
            else if "queue_declare_arguments" in destination && destination["queue_declare_arguments"].Dict?
            then destination["queue_declare_arguments"].entries
            else map[]
  {
    var second, third := ["queue_args", "queue_declare_arguments"], ["queue_declare_arguments"];
    assert QUEUE_ARGS_KEYS[1..] == second && second[1..] == third && third[1..] == [];
    assert DictAt(destination, []) == map[];
    assert DictAt(destination, third) == if "queue_declare_arguments" in destination && destination["queue_declare_arguments"].Dict?
                                         then destination["queue_declare_arguments"].entries else map[];
    assert DictAt(destination, second) == if "queue_args" in destination && destination["queue_args"].Dict?
                                          then destination["queue_args"].entries else DictAt(destination, third);
  }

  /** Lower case keeps what is not an upper-case letter, and moves each letter by the distance of the alphabets. */
  lemma LowerExact(s: string)
    ensures forall i :: 0 <= i < |s| ==>
              if s[i] < 'A' || s[i] > 'Z' then Lower(s)[i] == s[i] else Lower(s)[i] as int - s[i] as int == 'a' as int - 'A' as int
  {
    hide Lower;
  }

  /** The blanks are the space, the five ASCII controls from tab to carriage return, and the four separators. */
  lemma BlanksExact()
    ensures forall c: char :: IsSpace(c) <==> c as int in {9, 10, 11, 12, 13, 28, 29, 30, 31, 32}
  {
  }

  predicate Blank(s: string) {
    forall i :: 0 <= i < |s| ==> IsSpace(s[i])
  }

  lemma {:induction false} StripRightSplits(s: string)
    ensures var r := StripRight(s);
            |r| <= |s| && s[..|r|] == r && Blank(s[|r|..]) && (r != [] ==> !IsSpace(r[|r| - 1]))
  {
    if s != [] && IsSpace(s[|s| - 1]) {
      StripRightSplits(s[..|s| - 1]);
      var k := |StripRight(s)|;
      assert s[k..] == s[..|s| - 1][k..] + [s[|s| - 1]];
    }
  }

  lemma {:induction false} StripLeftSplits(s: string)
    ensures var r := StripLeft(s);
            |r| <= |s| && s[|s| - |r|..] == r && Blank(s[..|s| - |r|]) && (r != [] ==> !IsSpace(r[0]))
  {
    if s != [] && IsSpace(s[0]) {
      StripLeftSplits(s[1..]);
      var k := |s| - |StripLeft(s)|;
      assert s[..k] == [s[0]] + s[1..][..k - 1];
    }
  }

  lemma {:induction false} StripRightPadded(t: string, post: string)
    requires Blank(post) && (t != [] ==> !IsSpace(t[|t| - 1]))
    ensures StripRight(t + post) == t
  {
    if post == [] {
      assert t + post == t;
    } else {
      StripRightPadded(t, post[..|post| - 1]);
      assert (t + post)[..|t + post| - 1] == t + post[..|post| - 1];
    }
  }

  lemma {:induction false} StripLeftPadded(pre: string, t: string)
    requires Blank(pre) && (t != [] ==> !IsSpace(t[0]))
    ensures StripLeft(pre + t) == t
  {
    if pre == [] {
      assert pre + t == t;
    } else {
      StripLeftPadded(pre[1..], t);
      assert (pre + t)[1..] == pre[1..] + t;
    }
  }

  /** The text is "dead_letter" in some case, between blanks. */
  ghost predicate SaysDeadLetter(text: string) {
    exists pre: string, t: string, post: string ::
      text == pre + t + post && Blank(pre) && Blank(post) && Lower(t) == "dead_letter"
  }

  lemma NormalOfPadded(pre: string, t: string, post: string)
    requires Blank(pre) && Blank(post) && (t != [] ==> !IsSpace(t[0]) && !IsSpace(t[|t| - 1]))
    ensures Normal(pre + t + post) == Lower(t)
  {
    hide IsSpace, Lower;
    if t == [] {
      assert pre + t + post == [] + (pre + post) && Blank(pre + post);
      StripRightPadded([], pre + post);
    } else {
      StripRightPadded(pre + t, post);
      StripLeftPadded(pre, t);
    }
  }

  lemma PaddedOfNormal(text: string) returns (pre: string, t: string, post: string)
    ensures text == pre + t + post && Blank(pre) && Blank(post) && Lower(t) == Normal(text)
  {
    var r := StripRight(text);
    t := StripLeft(r);
    StripRightSplits(text);
    StripLeftSplits(r);
    pre, post := r[..|r| - |t|], text[|r|..];
  }

  lemma EndsNotBlank(t: string, lowered: string)
    requires Lower(t) == lowered && lowered != []
    requires !IsSpace(lowered[0]) && !IsSpace(lowered[|lowered| - 1])
    ensures !IsSpace(t[0]) && !IsSpace(t[|t| - 1])
  {
    SpaceStays(t[0]);
    SpaceStays(t[|t| - 1]);
    hide IsSpace, LowerChar;
  }

  lemma SpaceStays(c: char)
    ensures IsSpace(c) ==> LowerChar(c) == c
  {
  }

  lemma DeadLetterEnds(t: string)
    requires Lower(t) == "dead_letter"
    ensures t != [] && !IsSpace(t[0]) && !IsSpace(t[|t| - 1])
  {
    EndsNotBlank(t, "dead_letter");
  }

  /** A configured mode is "dead_letter" exactly when its text says so, whatever its case and padding; else it requeues. */
  lemma ModeExact(destination: Mapping)
    requires "on_error" in DictAt(destination, QUEUE_ARGS_KEYS)
    ensures ResolveConfig(destination).onError.DeadLetter?
       <==> SaysDeadLetter(Text(DictAt(destination, QUEUE_ARGS_KEYS)["on_error"]))
  {
    var text := Text(DictAt(destination, QUEUE_ARGS_KEYS)["on_error"]);
    var pre, t, post := PaddedOfNormal(text);
    hide DictAt, Normal, Blank, Lower, IsSpace;
    if SaysDeadLetter(text) {
      var pre', t', post' :| text == pre' + t' + post' && Blank(pre') && Blank(post') && Lower(t') == "dead_letter";
      DeadLetterEnds(t');
      NormalOfPadded(pre', t', post');
    }
  }

  /** `cfg.dead_letter_queue` as a condition: an empty name counts as none. */
  predicate HasQueue(cfg: Config) {
    cfg.deadLetterQueue.Some? && cfg.deadLetterQueue.value != ""
  }

  // ---------------------------------------------------------------- retry counting

  /** One entry of an `x-death` list: a dict whose "count" `int()` may refuse, or something else. */
  datatype Death = Counted(count: int) | Uncounted | NotADict

  /** A delivery's headers, as far as the code looks at them. */
  datatype Headers = NoHeaders | NoXDeath | NotAList | XDeath(entries: seq<Death>)

  function CountOf(d: Death): int {
    if d.Counted? then d.count else 0
  }

  function SumCounts(entries: seq<Death>): int {
    if entries == [] then 0 else SumCounts(entries[..|entries| - 1]) + CountOf(entries[|entries| - 1])
  }

  /** The total the broker has recorded. */
  function Deaths(h: Headers): int {
    if h.XDeath? then SumCounts(h.entries) else 0
  }

  /** The 1-based number of the attempt a delivery is. */
  function Attempt(h: Headers): (n: int)
    ensures n >= 1
  {
    1 + if Deaths(h) > 0 then Deaths(h) else 0
  }

  /** `retry_attempt_from_headers`. */
  method RetryAttemptFromHeaders(h: Headers) returns (attempt: int)
    ensures attempt == Attempt(h)
  {
    if h.NoHeaders? || h.NoXDeath? || (h.XDeath? && h.entries == []) {
      return 1;
    }
    var total := 0;
    if h.XDeath? {
      for i := 0 to |h.entries|
        invariant total == SumCounts(h.entries[..i])
      {
        assert h.entries[..i + 1][..i] == h.entries[..i];
        if h.entries[i].Counted? {
          total := total + h.entries[i].count;
        }
      }
      assert h.entries[..|h.entries|] == h.entries;
    }
    attempt := 1 + if total > 0 then total else 0;
  }

  /** The total of a list is the sum of the totals of its parts, wherever it is cut. */
  lemma {:induction false} SumCountsAppend(a: seq<Death>, b: seq<Death>)
    ensures SumCounts(a + b) == SumCounts(a) + SumCounts(b)
  {
    if b == [] {
      assert a + b == a;
    } else {
      var front := b[..|b| - 1];
      SumCountsAppend(a, front);
      assert (a + b)[..|a + b| - 1] == a + front;
    }
  }

  /** The sum of numbers. */
  function Total(counts: seq<int>): int {
    if counts == [] then 0 else counts[0] + Total(counts[1..])
  }

  function AllCounted(counts: seq<int>): (r: seq<Death>)
    ensures |r| == |counts| && forall i :: 0 <= i < |r| ==> r[i] == Counted(counts[i])
  {
    seq(|counts|, i requires 0 <= i < |counts| => Counted(counts[i]))
  }

  lemma {:induction false} CountsAddUp(counts: seq<int>)
    ensures SumCounts(AllCounted(counts)) == Total(counts)
  {
    if counts != [] {
      var first, rest := AllCounted(counts[..1]), AllCounted(counts[1..]);
      CountsAddUp(counts[1..]);
      assert AllCounted(counts) == first + rest;
      SumCountsAppend(first, rest);
      assert first == [Counted(counts[0])] && first[..0] == [];
    }
  }

  /** The attempt is one more than the counts together, or 1 when they come to less than nothing or there are none. */
  lemma AttemptExact(counts: seq<int>)
    ensures Attempt(XDeath(AllCounted(counts))) == if Total(counts) > 0 then 1 + Total(counts) else 1
    ensures Attempt(NoHeaders) == Attempt(NoXDeath) == Attempt(NotAList) == 1
  {
    CountsAddUp(counts);
  }

  lemma UnparseableIgnored(a: seq<Death>, d: Death, b: seq<Death>)
    requires !d.Counted?
    ensures Attempt(XDeath(a + [d] + b)) == Attempt(XDeath(a + b))
  {
    SumCountsAppend(a + [d], b);
    SumCountsAppend(a, [d]);
    SumCountsAppend(a, b);
    assert [d][..0] == [];
  }
}
