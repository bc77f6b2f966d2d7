/** The blank-line scanner of the connection handler: which requests it answers, for any chunking of the input. */
module Scanner {

  const BUFFER_SIZE: nat := 1024

  /** `newline`, and how many responses have been started. */
  datatype Scan = Scan(newline: bool, started: nat)

  const FRESH := Scan(false, 0)

  function Feed(s: Scan, c: char): Scan {
    match c
    case '\r' => s
    case '\n' => if s.newline then Scan(false, s.started + 1) else Scan(true, s.started)
    case _ => Scan(false, s.started)
  }

  function FeedAll(s: Scan, input: seq<char>): Scan
    decreases |input|
  {
    if input == [] then s else FeedAll(Feed(s, input[0]), input[1..])
  }

  /** Scanning a concatenation is scanning its parts in turn, so chunk boundaries do not matter. */
  lemma {:induction false} FeedConcat(s: Scan, a: seq<char>, b: seq<char>)
    ensures FeedAll(s, a + b) == FeedAll(FeedAll(s, a), b)
    decreases |a|
  {
    if a == [] {
      assert a + b == b;
    } else {
      FeedConcat(Feed(s, a[0]), a[1..], b);
      assert (a + b)[1..] == a[1..] + b;
    }
  }

  /** The bytes `recv` delivers before it reports the end of the stream with a size of zero. */
  function Received(chunks: seq<seq<char>>): seq<char> {
    if chunks == [] || chunks[0] == [] then [] else chunks[0] + Received(chunks[1..])
  }

  lemma {:induction false} ReceivedSnoc(chunks: seq<seq<char>>, j: nat)
    requires j < |chunks| && forall k :: 0 <= k < j ==> chunks[k] != []
    ensures Received(chunks[..j + 1]) == Received(chunks[..j]) + chunks[j]
    ensures chunks[j] == [] ==> Received(chunks) == Received(chunks[..j])
    decreases j
  {
    if j > 0 {
      ReceivedSnoc(chunks[1..], j - 1);
      assert chunks[1..][..j] == chunks[..j + 1][1..];
      assert chunks[1..][..j - 1] == chunks[..j][1..];
    } else {
      assert chunks[..1][1..] == [];
    }
  }

  /** The receive loop of the handler, counting the responses it starts. */
  method HandleInput(chunks: seq<seq<char>>) returns (started: nat)
    requires forall k :: 0 <= k < |chunks| ==> |chunks[k]| <= BUFFER_SIZE
    ensures started == FeedAll(FRESH, Received(chunks)).started
  {
    var buffer := new char[BUFFER_SIZE];
    var newline := false;
    started := 0;
    var j := 0;
    while j < |chunks|
      invariant 0 <= j <= |chunks|
      invariant forall k :: 0 <= k < j ==> chunks[k] != []
      invariant FeedAll(FRESH, Received(chunks[..j])) == Scan(newline, started)
    {
      var size := |chunks[j]|;
      ReceivedSnoc(chunks, j);
      if size == 0 {
        return;
      }
      forall k | 0 <= k < size {
        buffer[k] := chunks[j][k];
      }
      ghost var before := Scan(newline, started);
      for i := 0 to size
        invariant buffer[..size] == chunks[j]
        invariant FeedAll(before, chunks[j][..i]) == Scan(newline, started)
      {
        FeedConcat(before, chunks[j][..i], [buffer[i]]);
        assert chunks[j][..i + 1] == chunks[j][..i] + [buffer[i]];
        match buffer[i] {
          case '\r' =>
          case '\n' =>
            if newline {
              started := started + 1;
              newline := false;
            } else {
              newline := true;
            }
          case _ => newline := false;
        }
      }
      assert chunks[j][..size] == chunks[j];
      FeedConcat(FRESH, Received(chunks[..j]), chunks[j]);
      j := j + 1;
    }
    assert chunks[..j] == chunks;
  }

  // ---------------------------------------------------------------------------------------------
  // What is counted.

  function DropCr(input: seq<char>): seq<char> {
    if input == [] then []
    else if input[0] == '\r' then DropCr(input[1..])
    else [input[0]] + DropCr(input[1..])
  }

  /** The length of the run of line feeds at the front. */
  function LeadingLf(s: seq<char>): (k: nat)
    ensures k <= |s| && (forall i :: 0 <= i < k ==> s[i] == '\n') && (k < |s| ==> s[k] != '\n')
  {
    if s == [] || s[0] != '\n' then 0 else 1 + LeadingLf(s[1..])
  }

  /** Half the length, rounded down, of every maximal run of line feeds, summed. */
  function HalfRuns(s: seq<char>): nat
    decreases |s|
  {
    if s == [] then 0
    else if s[0] == '\n' then LeadingLf(s) / 2 + HalfRuns(s[LeadingLf(s)..])
    else HalfRuns(s[1..])
  }

  lemma {:induction false} CrIsIgnored(s: Scan, input: seq<char>)
    ensures FeedAll(s, input) == FeedAll(s, DropCr(input))
    decreases |input|
  {
    if input == [] {
    } else {
      CrIsIgnored(Feed(s, input[0]), input[1..]);
      if input[0] != '\r' {
        assert DropCr(input)[1..] == DropCr(input[1..]);
      }
    }
  }

  lemma {:induction false} CrIsDropped(input: seq<char>)
    ensures '\r' !in DropCr(input)
  {
    if input == [] {
    } else {
      CrIsDropped(input[1..]);
    }
  }

  /** A run of `k` line feeds starts `k / 2` responses, and one more if the scanner was already at a line end. */
  lemma {:induction false} LfRun(s: Scan, input: seq<char>, k: nat)
    requires k <= |input| && forall i :: 0 <= i < k ==> input[i] == '\n'
    ensures var m := k + if s.newline then 1 else 0;
      FeedAll(s, input) == FeedAll(Scan(m % 2 == 1, s.started + m / 2), input[k..])
    decreases k
  {
    if k == 0 {
      assert input[0..] == input;
    } else {
      LfRun(Feed(s, input[0]), input[1..], k - 1);
      assert input[1..][k - 1..] == input[k..];
    }
  }

  lemma {:induction false} CountsHalfRuns(s: Scan, input: seq<char>)
    requires '\r' !in input && (s.newline ==> input == [] || input[0] != '\n')
    ensures FeedAll(s, input).started == s.started + HalfRuns(input)
    decreases |input|
  {
    if input == [] {
    } else {
      if input[0] == '\n' {
        var k := LeadingLf(input);
        LfRun(s, input, k);
        CountsHalfRuns(Scan(k % 2 == 1, s.started + k / 2), input[k..]);
      } else {
        CountsHalfRuns(Feed(s, input[0]), input[1..]);
      }
    }
  }

  /** The responses started depend only on the bytes received, and this is how many they are. */
  lemma ResponsesStarted(input: seq<char>)
    ensures FeedAll(FRESH, input).started == HalfRuns(DropCr(input))
  {
    CrIsIgnored(FRESH, input);
    CrIsDropped(input);
    CountsHalfRuns(FRESH, DropCr(input));
  }
}
