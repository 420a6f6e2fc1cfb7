/**
 * The footer terminal: a line of input, a history of output lines, a fixed
 * table of commands looked up by the trimmed, lower-cased input, and a lock
 * while zero-gravity is on.
 */
module Terminal {
  import opened Text

  /** What a command does to the history; `triggersZenith` marks the command that activates zero-gravity. */
  datatype Command = Reply(lines: seq<string>, triggersZenith: bool) | ClearHistory

  const Commands: map<string, Command> := map[
    "--help" := Reply(["> --help", "Available: --contact, --about, --clear, --status, --stack, zenith 1"], false),
    "--contact" := Reply(["> --contact", "EMAIL: touseefpanjtan52@gmail.com", "GITHUB: github.com/orewa-zenith",
                          "LOCATION: Distributed Node"], false),
    "--about" := Reply(["> --about",
                        "Touseef Panjtan (Zenith): Creative Engineer building high-fidelity digital experiences."], false),
    "--clear" := ClearHistory,
    "--status" := Reply(["> --status", "CORE: Operational", "LATENCY: 12ms", "UPTIME: 99.99%", "LH_SCORE: 100"], false),
    "--stack" := Reply(["> --stack", "TECH: React, Three.js, GLSL, Framer Motion, TypeScript"], false),
    "zenith 1" := Reply(["> zenith 1", "INITIALIZING_QUANTUM_OVERRIDE...", "BYPASSING_GRAVITY_LOCKS..."], true)
  ]

  const InitialHistory: seq<string> := [
    "System initialization complete.",
    "Atmospheric shaders: ONLINE",
    "Physics engine: STABLE",
    "Type \"--help\" or \"zenith 1\" to begin."
  ]

  const Warnings: seq<string> := [">> WARNING: GRAVITY_ENGINE_FAILURE", ">> SYSTEM_OVERRIDE_ACTIVE", ">> INPUT_LOCKED"]

  /**
   * `input.trim().toLowerCase()`, the key the command table is searched with:
   * it has no capitals and neither starts nor ends with white space.
   */
  function Normalise(input: string): (key: string)
    ensures forall i :: 0 <= i < |key| ==> !('A' <= key[i] <= 'Z')
    ensures key == [] || (!IsSpace(key[0]) && !IsSpace(key[|key| - 1]))
  {
    var t := Trim(input);
    LowerKeepsEnds(t);
    Lower(t)
  }

  /** The echo and the error for an input that names no command; both show the input as typed. */
  function NotRecognised(input: string): (lines: seq<string>)
    ensures |lines| == 2 && |lines[0]| == 2 + |input| && |lines[1]| > 8 + |input|
    ensures lines[0][2..] == input && lines[1][8..8 + |input|] == input
  {
    ["> " + input, "Error: '" + input + "' is not recognized. Try '--help'"]
  }

  /** History and input after a submit, and whether the zenith trigger was called. */
  datatype Submitted = Submitted(history: seq<string>, input: string, triggered: bool)

  /**
   * The part of `handleCommand` after the lock, for the table read as a
   * dictionary of its own keys: `key` is the normalised input and `input`
   * the text as typed. A command runs, a non-blank unknown key is echoed
   * with an error, a blank one adds nothing, and the input is cleared.
   */
  function Respond(history: seq<string>, input: string, key: string): (r: Submitted)
    ensures r.input == ""
    ensures key in Commands && Commands[key] == ClearHistory ==> r.history == [] && !r.triggered
    ensures key in Commands && Commands[key].Reply? ==>
      r.history == history + Commands[key].lines && r.triggered == Commands[key].triggersZenith
    ensures key !in Commands && key != "" ==> r.history == history + NotRecognised(input) && !r.triggered
    ensures key !in Commands && key == "" ==> r.history == history && !r.triggered
  {
    if key in Commands then
      match Commands[key]
      case ClearHistory => Submitted([], "", false)
      case Reply(lines, trigger) => Submitted(history + lines, "", trigger)
    else if key != "" then
      Submitted(history + NotRecognised(input), "", false)
    else
      Submitted(history, "", false)
  }

  /**
   * `handleCommand`: locked in zero-gravity (nothing changes and nothing is
   * triggered); otherwise the answer to the trimmed, lower-cased input.
   */
  function SubmitStep(history: seq<string>, input: string, zeroGravity: bool): (r: Submitted)
    ensures zeroGravity ==> r == Submitted(history, input, false)
    ensures !zeroGravity ==> r.input == ""
    ensures !zeroGravity && Normalise(input) in Commands && Commands[Normalise(input)] == ClearHistory ==>
      r.history == [] && !r.triggered
    ensures !zeroGravity && Normalise(input) in Commands && Commands[Normalise(input)].Reply? ==>
      r.history == history + Commands[Normalise(input)].lines && r.triggered == Commands[Normalise(input)].triggersZenith
    ensures !zeroGravity && Normalise(input) !in Commands && Normalise(input) != "" ==>
      r.history == history + NotRecognised(input) && !r.triggered
    ensures !zeroGravity && Normalise(input) == "" ==> r.history == history && !r.triggered
  {
    CommandTable();
    if zeroGravity then Submitted(history, input, false) else Respond(history, input, Normalise(input))
  }

  /** Of the table's entries only `--clear` empties the history and only `zenith 1` triggers. */
  lemma CommandTable()
    ensures "" !in Commands
    ensures forall k :: k in Commands ==> (Commands[k] == ClearHistory <==> k == "--clear")
    ensures forall k :: k in Commands ==> (Commands[k].Reply? && Commands[k].triggersZenith <==> k == "zenith 1")
  {
  }

  /** The zenith trigger is called exactly when an unlocked submit names `zenith 1`. */
  lemma TriggeredIffZenith(history: seq<string>, input: string, zeroGravity: bool)
    ensures SubmitStep(history, input, zeroGravity).triggered <==> !zeroGravity && Normalise(input) == "zenith 1"
  {
    CommandTable();
  }

  /** A blank or white-space-only input adds nothing to the history. */
  lemma BlankInputAddsNothing(history: seq<string>, input: string, zeroGravity: bool)
    requires AllSpace(input)
    ensures SubmitStep(history, input, zeroGravity).history == history
  {
    TrimIsSlice(input);
  }

  /** An unknown input with a non-space character adds exactly the two error lines, echoing the raw input. */
  lemma UnknownInputAddsTwoLines(history: seq<string>, input: string)
    requires !AllSpace(input) && Normalise(input) !in Commands
    ensures SubmitStep(history, input, false).history == history + NotRecognised(input)
  {
    TrimIsSlice(input);
  }

  /** Apart from `--clear`, a submit only appends: the old history is kept, in order, as a prefix. */
  lemma SubmitOnlyAppends(history: seq<string>, input: string, zeroGravity: bool)
    requires zeroGravity || Normalise(input) != "--clear"
    ensures var h := SubmitStep(history, input, zeroGravity).history;
      |h| >= |history| && h[..|history|] == history
  {
    if !zeroGravity {
      RespondOnlyAppends(history, input, Normalise(input));
    }
  }

  lemma RespondOnlyAppends(history: seq<string>, input: string, key: string)
    requires key != "--clear"
    ensures var h := Respond(history, input, key).history;
      |h| >= |history| && h[..|history|] == history
  {
    if key in Commands {
      OnlyClearClears(key);
      var h := history + Commands[key].lines;
      assert h[..|history|] == history;
    } else if key != "" {
      var h := history + NotRecognised(input);
      assert h[..|history|] == history;
    }
  }

  /** Every entry other than `--clear` is a reply. */
  lemma OnlyClearClears(key: string)
    requires key in Commands && key != "--clear"
    ensures Commands[key].Reply?
  {
    CommandTable();
  }

  /** The effect on `isZeroGravity`: turning it on appends the three warnings, turning it off adds nothing. */
  function ZeroGravityEffect(history: seq<string>, zeroGravity: bool): (r: seq<string>)
    ensures zeroGravity ==> r == history + Warnings && |r| == |history| + 3
    ensures !zeroGravity ==> r == history
  {
    if zeroGravity then history + Warnings else history
  }

  /** Surrounding white space and letter case never change which command the input selects. */
  lemma SameCommandRegardlessOfPaddingAndCase(w1: string, s: string, w2: string, t: string)
    requires AllSpace(w1) && AllSpace(w2) && Lower(s) == Lower(t)
    ensures Normalise(w1 + s + w2) == Normalise(t)
  {
    TrimPadded(w1, s, w2);
    TrimLowerCommute(s);
    TrimLowerCommute(t);
    LowerIdempotent(Trim(s));
    LowerIdempotent(Trim(t));
  }

  /** So a padded, differently-cased spelling of a command has exactly the command's effect. */
  lemma PaddedCommandRunsTheSame(history: seq<string>, w1: string, s: string, w2: string, zeroGravity: bool)
    requires AllSpace(w1) && AllSpace(w2) && Normalise(s) in Commands
    ensures SubmitStep(history, w1 + s + w2, zeroGravity).history == SubmitStep(history, s, zeroGravity).history
    ensures SubmitStep(history, w1 + s + w2, zeroGravity).triggered == SubmitStep(history, s, zeroGravity).triggered
  {
    SameCommandRegardlessOfPaddingAndCase(w1, s, w2, s);
  }

  lemma ZenithEntry()
    ensures "zenith 1" in Commands
    ensures Commands["zenith 1"] == Reply(["> zenith 1", "INITIALIZING_QUANTUM_OVERRIDE...", "BYPASSING_GRAVITY_LOCKS..."], true)
  {
  }

  /** `zenith 1` appends its three lines and triggers once; no other input triggers. */
  lemma ZenithCommand(history: seq<string>)
    ensures SubmitStep(history, "zenith 1", false) == Submitted(history + [
      "> zenith 1", "INITIALIZING_QUANTUM_OVERRIDE...", "BYPASSING_GRAVITY_LOCKS..."], "", true)
  {
    NormaliseFixed("zenith 1");
    ZenithEntry();
  }

  // ---------------------------------------------------------------------------
  // The lookup as written: `commands[rawInput]` on an object literal also sees
  // the members every object inherits. The only inherited names that survive
  // lower-casing are `constructor` (the `Object` function: calling it has no
  // effect) and `__proto__` (an object: calling it throws a TypeError before
  // the input is cleared).

  datatype Lookup = OwnCommand(command: Command) | InheritedFunction | InheritedObject | Undefined

  function LookupAsWritten(key: string): (r: Lookup)
    ensures key in Commands ==> r == OwnCommand(Commands[key])
    ensures r == Undefined <==> key !in Commands && key != "constructor" && key != "__proto__"
  {
    if key in Commands then OwnCommand(Commands[key])
    else if key == "constructor" then InheritedFunction
    else if key == "__proto__" then InheritedObject
    else Undefined
  }

  /** The handler's result as written, or Threw when it raises before the input is cleared. */
  datatype Outcome = Returned(result: Submitted) | Threw

  /**
   * `Respond` with the lookup as written: only `__proto__` throws, whenever
   * the handler returns the input is cleared, and `constructor` prints nothing.
   */
  function RespondAsWritten(history: seq<string>, input: string, key: string): (r: Outcome)
    ensures r == Threw <==> key == "__proto__"
    ensures r.Returned? ==> r.result.input == ""
    ensures key == "constructor" ==> r == Returned(Submitted(history, "", false))
  {
    InheritedNamesAreNoCommands();
    var found := LookupAsWritten(key);
    if found.InheritedObject? then Threw
    else if found.InheritedFunction? then Returned(Submitted(history, "", false))
    else if found.OwnCommand? then
      if found.command.ClearHistory? then Returned(Submitted([], "", false))
      else Returned(Submitted(history + found.command.lines, "", found.command.triggersZenith))
    else if key != "" then Returned(Submitted(history + NotRecognised(input), "", false))
    else Returned(Submitted(history, "", false))
  }

  /** `handleCommand` as written: locked in zero-gravity, and otherwise throwing exactly for `__proto__`. */
  function SubmitAsWritten(history: seq<string>, input: string, zeroGravity: bool): (r: Outcome)
    ensures zeroGravity ==> r == Returned(Submitted(history, input, false))
    ensures r == Threw <==> !zeroGravity && Normalise(input) == "__proto__"
    ensures !zeroGravity && r.Returned? ==> r.result.input == ""
  {
    if zeroGravity then Returned(Submitted(history, input, false))
    else RespondAsWritten(history, input, Normalise(input))
  }

  /** The two lookups answer alike for every key except the two inherited names. */
  lemma RespondAgreesElsewhere(history: seq<string>, input: string, key: string)
    requires key != "constructor" && key != "__proto__"
    ensures RespondAsWritten(history, input, key) == Returned(Respond(history, input, key))
  {
  }

  /** The two handlers agree on every input except the two inherited names. */
  lemma AsWrittenAgreesElsewhere(history: seq<string>, input: string, zeroGravity: bool)
    requires Normalise(input) != "constructor" && Normalise(input) != "__proto__"
    ensures SubmitAsWritten(history, input, zeroGravity) == Returned(SubmitStep(history, input, zeroGravity))
  {
    if !zeroGravity {
      RespondAgreesElsewhere(history, input, Normalise(input));
    }
  }

  /**
   * As written, `constructor` is neither a command nor reported as unknown;
   * the intended handler answers it with the two error lines.
   */
  lemma ConstructorIsSwallowed(history: seq<string>, input: string)
    requires input == "constructor"
    ensures SubmitAsWritten(history, input, false) == Returned(Submitted(history, "", false))
    ensures SubmitStep(history, input, false).history == history + NotRecognised(input)
  {
    InheritedNamesAreNoCommands();
    NormaliseFixed(input);
  }

  /**
   * As written, `__proto__` makes the handler throw, leaving history and
   * input in place; the intended handler answers it with the two error lines.
   */
  lemma ProtoThrows(history: seq<string>, input: string)
    requires input == "__proto__"
    ensures SubmitAsWritten(history, input, false) == Threw
    ensures SubmitStep(history, input, false).history == history + NotRecognised(input)
  {
    InheritedNamesAreNoCommands();
    NormaliseFixed(input);
  }

  lemma InheritedNamesAreNoCommands()
    ensures "constructor" !in Commands && "__proto__" !in Commands
  {
  }

  /** An input with no white space at either end and no capitals is its own key. */
  lemma NormaliseFixed(s: string)
    requires s != [] && !IsSpace(s[0]) && !IsSpace(s[|s| - 1])
    requires forall i :: 0 <= i < |s| ==> !('A' <= s[i] <= 'Z')
    ensures Normalise(s) == s
  {
    assert TrimStart(s) == s;
    assert TrimEnd(s) == s;
  }

  class TerminalFooter {
    var input: string
    var history: seq<string>

    constructor ()
      ensures input == "" && history == InitialHistory
    {
      input := "";
      history := InitialHistory;
    }

    /** The input field's `onChange`. */
    method Type(text: string)
      modifies this
      ensures input == text && history == old(history)
    {
      input := text;
    }

    /** The form's submit; `triggered` says whether `onTriggerZenith` was called. */
    method Submit(zeroGravity: bool) returns (triggered: bool)
      modifies this
      ensures Submitted(history, input, triggered) == SubmitStep(old(history), old(input), zeroGravity)
    {
      triggered := false;
      if zeroGravity {
        return;
      }
      var key := Normalise(input);
      if key in Commands {
        match Commands[key] {
          case ClearHistory =>
            history := [];
          case Reply(lines, trigger) =>
            history := history + lines;
            triggered := trigger;
        }
      } else if key != "" {
        history := history + NotRecognised(input);
      }
      input := "";
    }

    /** The effect run when the `isZeroGravity` prop changes to `zeroGravity`. */
    method ZeroGravityChanged(zeroGravity: bool)
      modifies this
      ensures history == ZeroGravityEffect(old(history), zeroGravity) && input == old(input)
    {
      if zeroGravity {
        history := history + Warnings;
      }
    }
  }
}
