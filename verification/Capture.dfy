/** The bounded output buffer (pkg/executor/process.go) and the parser's truncation
    (pkg/executor/parser.go): together they show what an unbounded buffer would have shown. */
module Capture {
  const MAX_OUTPUT_LENGTH := 65536
  const TRUNCATED := "\n[truncated]"

  /** The first `limit` bytes of `s`; nothing if the limit is negative. */
  function Prefix(s: string, limit: int): (r: string)
    ensures |r| <= |s| && r == s[..|r|]
    ensures |r| == if limit <= 0 then 0 else if limit < |s| then limit else |s|
  {
    if |s| <= limit then s else if limit <= 0 then "" else s[..limit]
  }

  class BoundedBuffer {
    var buf: string
    const limit: int
    ghost var written: string   // everything that was ever written

    ghost predicate Valid()
      reads this
    {
      buf == Prefix(written, limit)
    }

    constructor (limit: int)
      ensures Valid() && this.limit == limit && written == ""
    {
      this.limit := limit;
      buf := "";
      written := "";
    }

    /** Reports every write as complete, whatever part of it was kept. */
    method Write(p: string) returns (n: nat)
      requires Valid()
      modifies this
      ensures Valid() && written == old(written) + p
      ensures n == |p|
    {
      written := written + p;
      if |buf| >= limit {
        return |p|;
      }
      var remaining := limit - |buf|;
      if |p| > remaining {
        buf := buf + p[..remaining];
        return |p|;
      }
      buf := buf + p;
      return |p|;
    }

    method String() returns (s: string)
      requires Valid()
      ensures s == Prefix(written, limit)
    {
      s := buf;
    }
  }

  function Truncate(s: string): (r: string)
    ensures |r| <= MAX_OUTPUT_LENGTH + |TRUNCATED|
  {
    if |s| <= MAX_OUTPUT_LENGTH then s else s[..MAX_OUTPUT_LENGTH] + TRUNCATED
  }

  /** Short outputs are shown as they are; of long ones the first 64 KiB are, and then the mark and
      no more. */
  lemma TruncateKeeps(s: string)
    ensures |s| <= 65536 ==> Truncate(s) == s
    ensures |s| > 65536 ==> Truncate(s)[..65536] == s[..65536] && Truncate(s)[65536..] == "\n[truncated]"
  {
    if |s| > 65536 {
      assert Truncate(s)[..65536] == s[..65536] && Truncate(s)[65536..] == TRUNCATED;
    }
  }

  lemma CaptureShows(s: string, limit: int)
    requires limit > MAX_OUTPUT_LENGTH
    ensures Truncate(Prefix(s, limit)) == Truncate(s)
  {
  }

  /** A buffer shows the same truncated text as one without a limit, for every output, exactly
      when its limit exceeds the truncation length. */
  lemma CaptureShowsExactly(limit: int)
    ensures (forall s: string :: Truncate(Prefix(s, limit)) == Truncate(s)) <==> limit > MAX_OUTPUT_LENGTH
  {
    if limit > MAX_OUTPUT_LENGTH {
      forall s: string ensures Truncate(Prefix(s, limit)) == Truncate(s) {
        CaptureShows(s, limit);
      }
    } else {
      var s := seq(MAX_OUTPUT_LENGTH + 1, _ => 'x');
      assert |Truncate(Prefix(s, limit))| <= MAX_OUTPUT_LENGTH < |Truncate(s)|;
    }
  }
}
