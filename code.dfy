/** The rotating code source (api/code.go): one current code and its expiry, replaced
    together by each rotation and read by `Generate`. */
module Code {
  import opened Wrappers
  import opened Clock

  /** A snapshot of the source: the code and the instant it stops being current. */
  datatype CodeRecord = CodeRecord(code: string, expires: Time)

  /** `RandomCodeGenerator`. `Length` and `duration` are fixed at construction; the
      mutex is not modelled, so each method runs as one atomic step and no state in
      which only one of `current` and `expires` has changed can be observed. */
  class RandomCodeGenerator {
    const Length: int
    const duration: Duration
    var current: string
    var expires: Time

    /** `NewRandomCodeGenerator(length, duration)` at instant `now`: the placeholder
        code "old", already expiring at `now`, until the first rotation. */
    constructor (length: int, duration: Duration, now: Time)
      ensures Length == length && this.duration == duration
      ensures current == "old" && expires == now
    {
      Length := length;
      this.duration := duration;
      current := "old";
      expires := now;
    }

    /** One iteration of the `generator` loop at instant `now`, where `drawn` is what
        `randString(Length)` produced: the code and its expiry are replaced together,
        the expiry lying exactly `duration` after the rotation. */
    method Rotate(now: Time, drawn: string)
      modifies this`current, this`expires
      ensures current == drawn && expires == now + duration
      ensures expires - now == duration
    {
      current := drawn;
      expires := Add(now, duration);
    }

    /** `Generate`: the current pair with a nil error; nothing changes. */
    method Generate() returns (r: Reply<CodeRecord>)
      ensures r == Ok(CodeRecord(current, expires))
    {
      r := Ok(CodeRecord(current, expires));
    }
  }

  /** Two reads with no rotation in between see the same snapshot. */
  method GenerateIsStable(g: RandomCodeGenerator) returns (first: Reply<CodeRecord>, second: Reply<CodeRecord>)
    ensures first == second && first.Ok?
  {
    first := g.Generate();
    second := g.Generate();
  }
}
