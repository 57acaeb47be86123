/**
 * The error table kurento-one2many-call/errors.js exports, as rejection reasons.
 * Only the entries that exist there are here: a name the servers use that is not
 * in the table evaluates to `undefined` (Reason.Undefined) at its use site.
 * The way an error constant is filled in before a rejection is the same in all
 * four servers, so the functions below serve them all.
 */
module One2ManyErrors {
  import opened Engine

  const NoMediaServerText := "Could not find media server at address "
  const PresenterExists := Error("PRESENTER_EXISTS", "Another user is currently acting as presenter. Try again later...")
  const PresenterNotFound := Error("PRESENTER_NOT_FOUND", "No active presenter. Try again later...")
  const RoomNotProvided := Error("ROOM_NOT_PROVIDED", "Room not provided")

  /**
   * A constant whose `message` was overwritten with the engine's error object
   * (`err.message = error`) before the rejection; concatenation turns the
   * object into its text.
   */
  function Templated(name: string, f: Fault): Reason
  {
    Error(name, f.Text())
  }

  /** A rejection with the engine's own error object (`reject(error)`). */
  function Raw(f: Fault): Reason
  {
    Error(f.name, f.message)
  }

  /**
   * The text the one-to-many servers send for a filled-in constant: it starts
   * with the constant's name, and the engine error's name and message follow,
   * so the engine's message is the text's tail.
   */
  lemma TemplatedRejectionText(name: string, f: Fault)
    ensures var t := OptionalChainText(Templated(name, f));
      && t == name + ": " + f.name + ": " + f.message
      && t[..|name| + 2] == name + ": "
      && t[|t| - |f.message|..] == f.message
  {
    var t := OptionalChainText(Templated(name, f));
    assert t == (name + ": ") + (f.name + ": " + f.message);
    assert t == (name + ": " + f.name + ": ") + f.message;
  }

  /**
   * A rejection with the engine's own error reads as that error's text, and
   * never as the text of any constant filled in with the same error: the
   * constant's name makes the latter longer.
   */
  lemma RawRejectionText(f: Fault, name: string)
    ensures OptionalChainText(Raw(f)) == f.Text()
    ensures OptionalChainText(Raw(f)) != OptionalChainText(Templated(name, f))
  {
    assert |OptionalChainText(Templated(name, f))| == |name| + 2 + |f.Text()|;
  }

  /** `errors.NO_MEDIA_SERVER.message` after one more failed connection to the engine at `wsUri`. */
  function NoMediaServerGrown(current: string, wsUri: string, f: Fault): (m: string)
    ensures |m| > |current| + |wsUri|
    ensures m[..|current|] == current
  {
    current + wsUri + ". Exiting with error " + f.Text()
  }

  /** `NO_MEDIA_SERVER`'s message after one failed connection per fault of `faults`, in order. */
  function GrownAfter(current: string, wsUri: string, faults: seq<Fault>): string
    decreases |faults|
  {
    if faults == [] then current else GrownAfter(NoMediaServerGrown(current, wsUri, faults[0]), wsUri, faults[1..])
  }

  /**
   * The message is never reset: after `n` failed connections it still starts
   * with the text it had before them and has grown by more than `n` copies of
   * the address.
   */
  lemma {:induction false} GrowthAccumulates(current: string, wsUri: string, faults: seq<Fault>)
    ensures var m := GrownAfter(current, wsUri, faults);
      && |m| >= |current| + |faults| * (|wsUri| + 1)
      && m[..|current|] == current
    decreases |faults|
  {
    if faults != [] {
      var next := NoMediaServerGrown(current, wsUri, faults[0]);
      GrowthAccumulates(next, wsUri, faults[1..]);
      var m := GrownAfter(current, wsUri, faults);
      assert m == GrownAfter(next, wsUri, faults[1..]);
      assert |faults| * (|wsUri| + 1) == (|wsUri| + 1) + |faults[1..]| * (|wsUri| + 1);
      assert m[..|current|] == m[..|next|][..|current|];
    }
  }
}
