/**
 * The application root: the "ZENITH1" key-sequence detector, the per-letter
 * effects it starts, and the two-phase switch into zero-gravity mode.
 *
 * The state the handlers touch is the React state (`level`, `isZeroGravity`,
 * `activeProject`, `showGlitchLine`, `isTrailActive`), the class list of
 * `document.body`, the `--accent` and `--accent-glow` CSS variables, and the
 * callbacks handed to `setTimeout`, held as an explicit queue of pending
 * timers that fire one at a time in any order.
 */
module App {
  import opened Wrappers
  import opened Text
  import opened Carousel

  const Target: string := "ZENITH1"
  /** Single-character keys that neither advance nor reset the sequence. */
  const IgnoredChars: set<string> := {" ", "-", "_"}
  const EscapeKey: string := "Escape"

  const FlashClass: string := "effect-e-flash"
  const MatrixClass: string := "effect-t-matrix"
  const BlastClass: string := "effect-blast"
  const ScanlineClass: string := "scanline-overlay"

  const NeutralAccent: string := "#00FFA3"
  const ZenithAccent: string := "#BD00FF"
  const ZenithGlow: string := "rgba(189, 0, 255, 0.5)"

  /** A callback scheduled with `setTimeout`; none of them is ever cancelled. */
  datatype Timer =
    | GlitchOff               // after 800 ms: hides the glitch line started by `Z`
    | FlashOff                // after 500 ms: removes the class added by `E`
    | MatrixOff               // after 1500 ms: removes the class added by `T`
    | ZenithFlip(wasZeroGravity: bool)  // after 800 ms: second phase of activation; remembers the mode at activation time

  datatype State = State(
    level: nat,
    isZeroGravity: bool,
    activeProject: Option<Project>,
    showGlitchLine: bool,
    isTrailActive: bool,
    body: set<string>,
    accent: string,
    accentGlow: string,
    bassCues: nat,          // how many times the activation tone was started
    pending: seq<Timer>)

  /** The key, upper-cased, is the next symbol of the sequence. */
  predicate Advances(s: State, key: string) {
    s.level < |Target| && Upper(key) == [Target[s.level]]
  }

  /**
   * Keys that never reset: space, `-`, `_` and every key whose upper-cased
   * form is not one UTF-16 code unit long (key names such as `Shift`, and
   * single characters outside the Basic Multilingual Plane).
   */
  predicate Ignored(key: string) {
    JsLength(Upper(key)) != 1 || Upper(key) in IgnoredChars
  }

  /** Escape: back to normal mode at once; pending timers stay pending. */
  function EscapeStep(s: State): (r: State)
    ensures r.level == 0 && !r.isZeroGravity && r.activeProject == None && !r.isTrailActive
    ensures r.body == {} && r.accent == NeutralAccent
    ensures r.pending == s.pending && r.accentGlow == s.accentGlow && r.showGlitchLine == s.showGlitchLine
    ensures r.bassCues == s.bassCues
  {
    s.(isZeroGravity := false, activeProject := None, level := 0, isTrailActive := false,
       body := {}, accent := NeutralAccent)
  }

  /**
   * First phase of activation: the per-letter effects are cleared and the body
   * shows the blast; the mode itself only flips when the queued ZenithFlip
   * fires, and that timer remembers the mode seen now.
   */
  function ActivateStep(s: State): (r: State)
    ensures r.level == 0 && !r.isTrailActive && r.body == {BlastClass}
    ensures r.isZeroGravity == s.isZeroGravity && r.accent == s.accent && r.accentGlow == s.accentGlow
    ensures r.activeProject == s.activeProject && r.showGlitchLine == s.showGlitchLine && r.bassCues == s.bassCues
    ensures r.pending == s.pending + [ZenithFlip(s.isZeroGravity)]
  {
    s.(body := {BlastClass}, level := 0, isTrailActive := false,
       pending := s.pending + [ZenithFlip(s.isZeroGravity)])
  }

  /** A key that is not Escape and does not advance: reset when progress was made, else nothing. */
  function MismatchStep(s: State, key: string): (r: State)
    ensures Ignored(key) || s.level == 0 ==> r == s
    ensures !Ignored(key) && s.level > 0 ==>
      r == s.(level := 0, isTrailActive := false, body := s.body - {FlashClass, MatrixClass})
  {
    if !Ignored(key) && s.level > 0 then
      s.(level := 0, isTrailActive := false, body := s.body - {FlashClass, MatrixClass})
    else
      s
  }

  /** The effect of matching symbol `c`, applied after the level was advanced. */
  function MatchEffect(s: State, c: char): (r: State)
    ensures c == 'Z' ==> r == s.(showGlitchLine := true, pending := s.pending + [GlitchOff])
    ensures c == 'E' ==> r == s.(body := s.body + {FlashClass}, pending := s.pending + [FlashOff])
    ensures c == 'N' ==> r == s.(bassCues := s.bassCues + 1)
    ensures c == 'I' ==> r == s.(isTrailActive := true)
    ensures c == 'T' ==> r == s.(body := s.body + {MatrixClass}, pending := s.pending + [MatrixOff])
    ensures c == '1' ==> r == ActivateStep(s)
    ensures c !in "ZENT1I" ==> r == s
  {
    match c
    case 'Z' => s.(showGlitchLine := true, pending := s.pending + [GlitchOff])
    case 'E' => s.(body := s.body + {FlashClass}, pending := s.pending + [FlashOff])
    case 'N' => s.(bassCues := s.bassCues + 1)
    case 'I' => s.(isTrailActive := true)
    case 'T' => s.(body := s.body + {MatrixClass}, pending := s.pending + [MatrixOff])
    case '1' => ActivateStep(s)
    case _ => s
  }

  /** The keydown handler. */
  function KeyStep(s: State, key: string): (r: State)
    ensures key == EscapeKey ==> r == EscapeStep(s)
    // a match advances by exactly one; the final symbol activates, and the reset to 0 wins
    ensures key != EscapeKey && Advances(s, key) && s.level + 1 < |Target| ==> r.level == s.level + 1
    ensures key != EscapeKey && Advances(s, key) ==> r == MatchEffect(s.(level := s.level + 1), Target[s.level])
    ensures key != EscapeKey && Advances(s, key) && s.level + 1 == |Target| ==> r == ActivateStep(s)
    ensures key != EscapeKey && !Advances(s, key) ==> r == MismatchStep(s, key)
    // only Escape changes the mode, and no key cancels a timer
    ensures key != EscapeKey ==> r.isZeroGravity == s.isZeroGravity
    ensures |s.pending| <= |r.pending| <= |s.pending| + 1 && r.pending[..|s.pending|] == s.pending
    ensures s.level < |Target| ==> r.level < |Target|
  {
    if key == EscapeKey then EscapeStep(s)
    else if Advances(s, key) then MatchEffect(s.(level := s.level + 1), Target[s.level])
    else MismatchStep(s, key)
  }

  /** The pending timers without the `i`-th one. */
  function Without(ts: seq<Timer>, i: nat): (r: seq<Timer>)
    requires i < |ts|
    ensures |r| == |ts| - 1
    ensures forall j :: 0 <= j < i ==> r[j] == ts[j]
    ensures forall j :: i <= j < |r| ==> r[j] == ts[j + 1]
  {
    ts[..i] + ts[i + 1..]
  }

  /** The `i`-th pending timer fires and leaves the queue. */
  function TimerStep(s: State, i: nat): (r: State)
    requires i < |s.pending|
    ensures r.pending == Without(s.pending, i) && r.level == s.level && r.activeProject == s.activeProject
    ensures s.pending[i] == GlitchOff ==> r == s.(showGlitchLine := false, pending := r.pending)
    ensures s.pending[i] == FlashOff ==> r == s.(body := s.body - {FlashClass}, pending := r.pending)
    ensures s.pending[i] == MatrixOff ==> r == s.(body := s.body - {MatrixClass}, pending := r.pending)
    ensures s.pending[i].ZenithFlip? ==>
      r == s.(body := if s.pending[i].wasZeroGravity then {} else {ScanlineClass}, isZeroGravity := true,
              accent := ZenithAccent, accentGlow := ZenithGlow, pending := r.pending)
    ensures !s.pending[i].ZenithFlip? ==> r.isZeroGravity == s.isZeroGravity && r.accent == s.accent
  {
    var rest := Without(s.pending, i);
    match s.pending[i]
    case GlitchOff => s.(showGlitchLine := false, pending := rest)
    case FlashOff => s.(body := s.body - {FlashClass}, pending := rest)
    case MatrixOff => s.(body := s.body - {MatrixClass}, pending := rest)
    case ZenithFlip(was) =>
      s.(body := if was then {} else {ScanlineClass}, isZeroGravity := true,
         accent := ZenithAccent, accentGlow := ZenithGlow, pending := rest)
  }

  /**
   * The handler run over a sequence of keys, with no timer firing in between:
   * no key cancels a timer, and without Escape the mode never changes.
   */
  function Run(s: State, keys: seq<string>): (r: State)
    ensures |s.pending| <= |r.pending| && r.pending[..|s.pending|] == s.pending
    ensures (forall i :: 0 <= i < |keys| ==> keys[i] != EscapeKey) ==> r.isZeroGravity == s.isZeroGravity
    decreases |keys|
  {
    if keys == [] then s else Run(KeyStep(s, keys[0]), keys[1..])
  }

  lemma {:induction false} RunAppend(s: State, a: seq<string>, b: seq<string>)
    ensures Run(s, a + b) == Run(Run(s, a), b)
    decreases |a|
  {
    if a != [] {
      assert (a + b)[0] == a[0] && (a + b)[1..] == a[1..] + b;
      RunAppend(KeyStep(s, a[0]), a[1..], b);
    } else {
      assert a + b == b;
    }
  }

  /** Progress stays below the length of the sequence, whatever is typed. */
  lemma {:induction false} RunKeepsLevelInRange(s: State, keys: seq<string>)
    requires s.level < |Target|
    ensures Run(s, keys).level < |Target|
    decreases |keys|
  {
    if keys != [] {
      RunKeepsLevelInRange(KeyStep(s, keys[0]), keys[1..]);
    }
  }

  /** A single character outside the Basic Multilingual Plane is two code units long, so it is ignored. */
  lemma AstralKeyIgnored(c: char)
    requires c >= '\U{10000}'
    ensures Ignored([c])
  {
    assert Upper([c]) == [c];
  }

  /** Any number of ignored keys changes nothing at all. */
  lemma {:induction false} IgnoredKeysChangeNothing(s: State, keys: seq<string>)
    requires forall i :: 0 <= i < |keys| ==> keys[i] != EscapeKey && Ignored(keys[i])
    ensures Run(s, keys) == s
    decreases |keys|
  {
    if keys != [] {
      assert !Advances(s, keys[0]);
      IgnoredKeysChangeNothing(KeyStep(s, keys[0]), keys[1..]);
    }
  }

  /** One key and its upper-cased form are handled alike (Escape is checked on the raw key). */
  lemma KeyCaseInsensitive(s: State, k: string, k': string)
    requires k != EscapeKey && k' != EscapeKey && Upper(k) == Upper(k')
    ensures KeyStep(s, k) == KeyStep(s, k')
  {
  }

  /** Typing a key sequence in any mix of cases gives the same run, e.g. `zenith1` and `ZENITH1`. */
  lemma {:induction false} RunCaseInsensitive(s: State, keys: seq<string>, keys': seq<string>)
    requires |keys| == |keys'|
    requires forall i :: 0 <= i < |keys| ==> keys[i] != EscapeKey && keys'[i] != EscapeKey && Upper(keys[i]) == Upper(keys'[i])
    ensures Run(s, keys) == Run(s, keys')
    decreases |keys|
  {
    if keys != [] {
      KeyCaseInsensitive(s, keys[0], keys'[0]);
      RunCaseInsensitive(KeyStep(s, keys[0]), keys[1..], keys'[1..]);
    }
  }

  /** The sequence detector does not re-synchronise: a `Z` out of place resets to 0, not to 1. */
  lemma StrayZResets(s: State)
    requires 0 < s.level < |Target|
    ensures KeyStep(s, "Z").level == 0 && KeyStep(s, "z").level == 0
  {
    assert Upper("Z") == "Z" && Upper("z") == "Z";
  }

  const ZenithKeys: seq<string> := ["Z", "E", "N", "I", "T", "H"]

  /** The first six symbols typed from level 0 reach level 6 and start the Z, E, N, I and T effects. */
  lemma ZenithPrefix(s: State, keys: seq<string>)
    requires s.level == 0 && keys == ZenithKeys
    ensures Run(s, keys) == s.(level := 6, showGlitchLine := true, isTrailActive := true,
      body := s.body + {FlashClass, MatrixClass}, bassCues := s.bassCues + 1,
      pending := s.pending + [GlitchOff, FlashOff, MatrixOff])
  {
    RunSixSplit(s, "Z", "E", "N", "I", "T", "H");
    var m := ZenPrefix(s);
    var r := NithSuffix(m);
    assert s.body + {FlashClass} + {MatrixClass} == s.body + {FlashClass, MatrixClass};
    assert s.pending + [GlitchOff, FlashOff] + [MatrixOff] == s.pending + [GlitchOff, FlashOff, MatrixOff];
  }

  /** `ZEN` from level 0: level 3, the glitch line with its timer, the flash class with its timer and one tone. */
  lemma ZenPrefix(s: State) returns (r: State)
    requires s.level == 0
    ensures r == Run(s, ["Z", "E", "N"])
    ensures r == s.(level := 3, showGlitchLine := true, body := s.body + {FlashClass},
      bassCues := s.bassCues + 1, pending := s.pending + [GlitchOff, FlashOff])
  {
    var s1 := MatchedKey(s, "Z");
    var s2 := MatchedKey(s1, "E");
    r := MatchedKey(s2, "N");
    RunThree(s, "Z", "E", "N");
  }

  /** `ITH` from level 3: level 6, the trail and the matrix class with its timer. */
  lemma NithSuffix(s: State) returns (r: State)
    requires s.level == 3
    ensures r == Run(s, ["I", "T", "H"])
    ensures r == s.(level := 6, isTrailActive := true, body := s.body + {MatrixClass},
      pending := s.pending + [MatrixOff])
  {
    var s1 := MatchedKey(s, "I");
    var s2 := MatchedKey(s1, "T");
    r := MatchedKey(s2, "H");
    RunThree(s, "I", "T", "H");
  }

  lemma RunSixSplit(s: State, k1: string, k2: string, k3: string, k4: string, k5: string, k6: string)
    ensures Run(s, [k1, k2, k3, k4, k5, k6]) == Run(Run(s, [k1, k2, k3]), [k4, k5, k6])
  {
    assert [k1, k2, k3, k4, k5, k6] == [k1, k2, k3] + [k4, k5, k6];
    RunAppend(s, [k1, k2, k3], [k4, k5, k6]);
  }

  lemma RunThree(s: State, k1: string, k2: string, k3: string)
    ensures Run(s, [k1, k2, k3]) == KeyStep(KeyStep(KeyStep(s, k1), k2), k3)
  {
    var s1 := KeyStep(s, k1);
    var s2 := KeyStep(s1, k2);
    assert [k1, k2, k3] == [k1] + ([k2] + ([k3] + []));
    RunCons(s2, k3, []);
    RunCons(s1, k2, [k3]);
    RunCons(s, k1, [k2, k3]);
  }

  lemma RunSnoc(s: State, keys: seq<string>, k: string)
    ensures Run(s, keys + [k]) == KeyStep(Run(s, keys), k)
  {
    RunAppend(s, keys, [k]);
    RunCons(Run(s, keys), k, []);
    assert [k] + [] == [k];
  }

  lemma RunCons(s: State, k: string, ks: seq<string>)
    ensures Run(s, [k] + ks) == Run(KeyStep(s, k), ks)
  {
    assert ([k] + ks)[1..] == ks;
  }

  /** A symbol typed in capitals at the level where it belongs advances and starts its effect. */
  lemma MatchedKey(s: State, key: string) returns (r: State)
    requires s.level < |Target| && key == [Target[s.level]]
    ensures r == KeyStep(s, key) && r == MatchEffect(s.(level := s.level + 1), key[0])
  {
    assert Upper(key) == key;
    r := KeyStep(s, key);
  }

  /**
   * `ZENITH1` typed from level 0 ends in the first activation phase: level 0,
   * only the blast class, the mode unchanged and the flip queued last.
   */
  lemma FullSequenceActivates(s: State)
    requires s.level == 0
    ensures var r := Run(s, ZenithKeys + ["1"]);
      && r.level == 0 && !r.isTrailActive && r.body == {BlastClass}
      && r.isZeroGravity == s.isZeroGravity && r.showGlitchLine && r.bassCues == s.bassCues + 1
      && r.pending == s.pending + [GlitchOff, FlashOff, MatrixOff] + [ZenithFlip(s.isZeroGravity)]
  {
    ZenithPrefix(s, ZenithKeys);
    RunSnoc(s, ZenithKeys, "1");
    LastSymbolActivates(Run(s, ZenithKeys));
  }

  lemma LastSymbolActivates(s: State)
    requires s.level == |Target| - 1
    ensures KeyStep(s, "1") == ActivateStep(s)
  {
    assert Upper("1") == "1";
  }

  /** After the full sequence the queued flip, when it fires, enters zero-gravity with the purple accent. */
  lemma FullSequenceThenFlip(s: State)
    requires s.level == 0
    ensures var r := Run(s, ZenithKeys + ["1"]);
      && |r.pending| > 0
      && var z := TimerStep(r, |r.pending| - 1);
      && z.isZeroGravity && z.accent == ZenithAccent
      && z.body == (if s.isZeroGravity then {} else {ScanlineClass})
  {
    FullSequenceActivates(s);
  }

  /** Six symbols and then a wrong one: back to level 0 and nothing is activated. */
  lemma WrongLastSymbolResets(s: State, w: string)
    requires s.level == 0 && w != EscapeKey && !Ignored(w) && Upper(w) != "1"
    ensures var r := Run(s, ZenithKeys + [w]);
      && r.level == 0 && !r.isTrailActive && r.isZeroGravity == s.isZeroGravity
      && r.body == s.body - {FlashClass, MatrixClass}
      && r.pending == s.pending + [GlitchOff, FlashOff, MatrixOff]
  {
    ZenithPrefix(s, ZenithKeys);
    RunSnoc(s, ZenithKeys, w);
  }

  /**
   * Escape in the 800 ms window does not cancel the flip (the timer handle is
   * discarded): when it fires the mode still turns to zero-gravity.
   */
  lemma EscapeDoesNotCancelFlip(s: State)
    ensures var e := EscapeStep(ActivateStep(s));
      && !e.isZeroGravity && |e.pending| > 0 && e.pending[|e.pending| - 1] == ZenithFlip(s.isZeroGravity)
      && TimerStep(e, |e.pending| - 1).isZeroGravity
  {
  }

  lemma EscapeIdempotent(s: State)
    ensures EscapeStep(EscapeStep(s)) == EscapeStep(s)
  {
  }

  /** Activating, cancelling and activating again queues a second flip that leads to zero-gravity as the first did. */
  lemma ReactivationAfterEscape(s: State)
    requires !s.isZeroGravity
    ensures var a := ActivateStep(EscapeStep(ActivateStep(s)));
      && a.pending == s.pending + [ZenithFlip(false), ZenithFlip(false)]
      && var z := TimerStep(a, |a.pending| - 1);
      && z.isZeroGravity && z.body == {ScanlineClass} && z.accent == ZenithAccent
  {
  }

  class ZenithApp {
    var level: nat
    var isZeroGravity: bool
    var activeProject: Option<Project>
    var showGlitchLine: bool
    var isTrailActive: bool
    var body: set<string>
    var accent: string
    var accentGlow: string
    var bassCues: nat
    var pending: seq<Timer>

    function Snapshot(): State
      reads this
    {
      State(level, isZeroGravity, activeProject, showGlitchLine, isTrailActive,
            body, accent, accentGlow, bassCues, pending)
    }

    predicate Valid()
      reads this
    {
      level < |Target|
    }

    /** The page as loaded: the body classes and CSS accents come from the document and stylesheet. */
    constructor (body0: set<string>, accent0: string, glow0: string)
      ensures Valid()
      ensures Snapshot() == State(0, false, None, false, false, body0, accent0, glow0, 0, [])
    {
      level := 0;
      isZeroGravity := false;
      activeProject := None;
      showGlitchLine := false;
      isTrailActive := false;
      body := body0;
      accent := accent0;
      accentGlow := glow0;
      bassCues := 0;
      pending := [];
    }

    method Escape()
      modifies this
      ensures Valid() && Snapshot() == EscapeStep(old(Snapshot()))
    {
      isZeroGravity := false;
      activeProject := None;
      level := 0;
      isTrailActive := false;
      body := {};
      accent := NeutralAccent;
    }

    /** `activateZenithMode`, called by the final key and by the terminal. */
    method Activate()
      modifies this
      ensures Valid() && Snapshot() == ActivateStep(old(Snapshot()))
    {
      body := body - {FlashClass, MatrixClass};
      body := {BlastClass};
      level := 0;
      isTrailActive := false;
      pending := pending + [ZenithFlip(isZeroGravity)];
    }

    method KeyDown(key: string)
      requires Valid()
      modifies this
      ensures Valid() && Snapshot() == KeyStep(old(Snapshot()), key)
    {
      var ch := Upper(key);
      if key == EscapeKey {
        Escape();
        return;
      }
      if ch == [Target[level]] {
        var c := Target[level];
        level := level + 1;
        match c {
          case 'Z' =>
            showGlitchLine := true;
            pending := pending + [GlitchOff];
          case 'E' =>
            body := body + {FlashClass};
            pending := pending + [FlashOff];
          case 'N' =>
            bassCues := bassCues + 1;
          case 'I' =>
            isTrailActive := true;
          case 'T' =>
            body := body + {MatrixClass};
            pending := pending + [MatrixOff];
          case 'H' =>
          case '1' =>
            Activate();
        }
      } else if JsLength(ch) == 1 && ch !in IgnoredChars {
        if level > 0 {
          level := 0;
          isTrailActive := false;
          body := body - {FlashClass, MatrixClass};
        }
      }
    }

    method FireTimer(i: nat)
      requires i < |pending|
      modifies this
      ensures Snapshot() == TimerStep(old(Snapshot()), i)
      ensures old(Valid()) ==> Valid()
    {
      var t := pending[i];
      pending := pending[..i] + pending[i + 1..];
      match t {
        case GlitchOff => showGlitchLine := false;
        case FlashOff => body := body - {FlashClass};
        case MatrixOff => body := body - {MatrixClass};
        case ZenithFlip(was) =>
          body := if was then {} else {ScanlineClass};
          isZeroGravity := true;
          accent := ZenithAccent;
          accentGlow := ZenithGlow;
      }
    }

    /** `setActiveProject`: a card dropped on the portal opens it, the close button clears it. */
    method SetActiveProject(p: Option<Project>)
      modifies this
      ensures Snapshot() == old(Snapshot()).(activeProject := p)
      ensures old(Valid()) ==> Valid()
    {
      activeProject := p;
    }
  }
}
