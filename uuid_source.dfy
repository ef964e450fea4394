/** `uuid4()` as a stream of random outcomes fixed in advance: draw number
    `k` of a run is `draw[k]`, and a generator remembers how many it has
    handed out. */
module UuidSource {

  const UuidAlphabet := "0123456789abcdef-"

  /** The text of `str(uuid4())`: lower-case hex digits and hyphens. */
  predicate UuidText(s: string) {
    |s| > 0 && forall i :: 0 <= i < |s| ==> s[i] in UuidAlphabet
  }

  /** A uuid has no '.' and no '/', so it is a plain file stem. */
  lemma UuidTextIsPlain(s: string)
    requires UuidText(s)
    ensures '.' !in s && '/' !in s
  {
  }

  /** From draw `start` on, some draw lies outside `taken`. */
  ghost predicate FreshFrom(draw: imap<nat, string>, taken: set<string>, start: nat)
    requires forall k: nat :: k in draw
  {
    exists k: nat :: start <= k && draw[k] !in taken
  }

  /** There is a draw for every number, every draw is uuid text, and
      however many ids are taken, a later draw is eventually a new one (a
      re-rolling loop ends). */
  ghost predicate IsUuidStream(draw: imap<nat, string>) {
    && (forall k: nat :: k in draw && UuidText(draw[k]))
    && (forall taken: set<string>, start: nat :: FreshFrom(draw, taken, start))
  }

  class Generator {
    const draw: imap<nat, string>
    var drawn: nat

    ghost predicate Valid() {
      IsUuidStream(draw)
    }

    constructor (draw: imap<nat, string>)
      requires IsUuidStream(draw)
      ensures Valid() && this.draw == draw && drawn == 0
    {
      this.draw := draw;
      drawn := 0;
    }

    /** `str(uuid4())`: the next draw of the stream. */
    method Uuid4() returns (u: string)
      requires Valid()
      modifies this
      ensures Valid()
      ensures drawn == old(drawn) + 1 && u == draw[old(drawn)] && UuidText(u)
    {
      u := draw[drawn];
      drawn := drawn + 1;
    }
  }
}
