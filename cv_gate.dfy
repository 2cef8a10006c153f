/** The access-code gate in front of the CV download (`cv-gate-modal`):
    a four-state machine (idle, checking, error, success) driven by the
    code field, a submit guard, a delayed check against the configured
    code, and the bookkeeping that moves the dialog under `<body>` while
    it is open. */
module CvGate {
  import opened Common

  datatype GateState = Idle | Checking | Error | Success

  // ------------------------------------------------------------ trimming

  /** The code points `String.prototype.trim` removes: ECMAScript
      WhiteSpace and LineTerminator. */
  predicate IsJsSpace(c: char) {
    c == ' ' || c == '\t' || c == '\n' || c == '\r' || c == '\U{000B}' || c == '\U{000C}' ||
    c == '\U{00A0}' || c == '\U{1680}' || ('\U{2000}' <= c <= '\U{200A}') ||
    c == '\U{2028}' || c == '\U{2029}' || c == '\U{202F}' || c == '\U{205F}' ||
    c == '\U{3000}' || c == '\U{FEFF}'
  }

  predicate AllSpace(s: string) {
    forall i :: 0 <= i < |s| ==> IsJsSpace(s[i])
  }

  /** `s` with its leading white space removed. */
  function TrimStart(s: string): (r: string)
    ensures |r| <= |s|
    ensures r == [] || !IsJsSpace(r[0])
  {
    if s != [] && IsJsSpace(s[0]) then TrimStart(s[1..]) else s
  }

  /** What `TrimStart` removes is a white-space prefix, and what it keeps
      is the rest of the string. */
  lemma {:induction false} TrimStartSplits(s: string)
    ensures s == s[..|s| - |TrimStart(s)|] + TrimStart(s)
    ensures AllSpace(s[..|s| - |TrimStart(s)|])
  {
    if s != [] && IsJsSpace(s[0]) {
      TrimStartSplits(s[1..]);
      var k := |s| - |TrimStart(s)|;
      assert s[1..][..k - 1] == s[1..k];
      assert s == [s[0]] + s[1..];
    }
  }

  /** `s` with its trailing white space removed. */
  function TrimEnd(s: string): (r: string)
    ensures |r| <= |s|
    ensures r == [] || !IsJsSpace(r[|r| - 1])
  {
    if s != [] && IsJsSpace(s[|s| - 1]) then TrimEnd(s[..|s| - 1]) else s
  }

  /** What `TrimEnd` keeps is a prefix of the string, and what it removes
      is white space. */
  lemma {:induction false} TrimEndSplits(s: string)
    ensures s == TrimEnd(s) + s[|TrimEnd(s)|..]
    ensures AllSpace(s[|TrimEnd(s)|..])
  {
    if s != [] && IsJsSpace(s[|s| - 1]) {
      var t := s[..|s| - 1];
      TrimEndSplits(t);
      assert s == t + [s[|s| - 1]];
      assert s[|TrimEnd(s)|..] == t[|TrimEnd(t)|..] + [s[|s| - 1]];
    }
  }

  /** The two trims split `s` into white space, a kept middle that
      neither starts nor ends with white space, and white space again. */
  lemma TrimParts(s: string)
    ensures s == s[..|s| - |TrimStart(s)|] + TrimEnd(TrimStart(s)) + TrimStart(s)[|TrimEnd(TrimStart(s))|..]
    ensures AllSpace(s[..|s| - |TrimStart(s)|]) && AllSpace(TrimStart(s)[|TrimEnd(TrimStart(s))|..])
    ensures TrimEnd(TrimStart(s)) == [] ||
            (!IsJsSpace(TrimEnd(TrimStart(s))[0]) && !IsJsSpace(TrimEnd(TrimStart(s))[|TrimEnd(TrimStart(s))| - 1]))
    ensures TrimEnd(TrimStart(s)) == [] <==> AllSpace(s)
  {
    TrimStartSplits(s);
    var u := TrimStart(s);
    TrimEndSplits(u);
    var t := TrimEnd(u);
    var p := s[..|s| - |u|];
    var q := u[|t|..];
    assert s == p + t + q;
    if t != [] {
      assert t[0] == u[0];
      assert s[|p|] == t[0];
    } else {
      // What is left after the leading white space starts with a
      // non-space, so trailing white space alone means nothing is left.
      assert u == q && u == [];
      assert s == p;
    }
  }

  /** `s.trim()`: the kept text neither starts nor ends with white space,
      and nothing is kept exactly when the text is all white space. */
  function Trim(s: string): (t: string)
    ensures |t| <= |s|
    ensures t == [] || (!IsJsSpace(t[0]) && !IsJsSpace(t[|t| - 1]))
    ensures t == [] <==> AllSpace(s)
  {
    TrimParts(s);
    TrimEnd(TrimStart(s))
  }

  lemma {:induction false} TrimStartPadded(p: string, t: string)
    requires AllSpace(p)
    ensures TrimStart(p + t) == TrimStart(t)
  {
    if p != [] {
      assert (p + t)[1..] == p[1..] + t;
      TrimStartPadded(p[1..], t);
    } else {
      assert p + t == t;
    }
  }

  lemma {:induction false} TrimEndPadded(t: string, q: string)
    requires AllSpace(q)
    ensures TrimEnd(t + q) == TrimEnd(t)
  {
    if q != [] {
      assert (t + q)[..|t + q| - 1] == t + q[..|q| - 1];
      TrimEndPadded(t, q[..|q| - 1]);
    } else {
      assert t + q == t;
    }
  }

  lemma TrimStartOfTrimmedEnd(t: string)
    requires t == [] || !IsJsSpace(t[0])
    ensures TrimStart(TrimEnd(t)) == TrimEnd(t)
  {
  }

  /** White space around a code never changes what it trims to. */
  lemma {:induction false} TrimIgnoresPadding(p: string, t: string, q: string)
    requires AllSpace(p) && AllSpace(q)
    ensures Trim(p + t + q) == Trim(t)
  {
    TrimStartPadded(p, t + q);
    assert p + t + q == p + (t + q);
    var u := TrimStart(t);
    var k := |t| - |u|;
    TrimStartSplits(t);
    assert t + q == t[..k] + (u + q);
    TrimStartPadded(t[..k], u + q);
    if u == [] {
      assert u + q == q;
      TrimStartPadded(q, []);
      assert q + [] == q;
    } else {
      assert (u + q)[0] == u[0];
    }
    TrimEndPadded(u, q);
  }

  /** Trimming twice is trimming once. */
  lemma TrimIdempotent(s: string)
    ensures Trim(Trim(s)) == Trim(s)
  {
    var u := TrimStart(s);
    var r := TrimEnd(u);
    TrimEndSplits(u);
    if r != [] {
      assert r[0] == u[0];
    }
    assert TrimStart(r) == r;
    assert TrimEnd(r) == r;
  }

  // ------------------------------------------------------------ derived values

  /** Codes are at least four UTF-16 code units long once trimmed. */
  const MinCodeLength: nat := 4

  /** `s.length`: the UTF-16 code units of `s`, two for a character
      outside the Basic Multilingual Plane (a surrogate pair), one for
      any other. */
  function Utf16Length(s: string): (n: nat)
    ensures |s| <= n <= 2 * |s|
    ensures n == |s| <==> forall i :: 0 <= i < |s| ==> s[i] < '\U{10000}'
  {
    if s == [] then 0
    else
      var rest := Utf16Length(s[1..]);
      assert forall i :: 1 <= i < |s| ==> s[i] == s[1..][i - 1];
      (if s[0] < '\U{10000}' then 1 else 2) + rest
  }

  /** Code units add up over a concatenation. */
  lemma {:induction false} Utf16LengthAppend(a: string, b: string)
    ensures Utf16Length(a + b) == Utf16Length(a) + Utf16Length(b)
  {
    if a == [] {
      assert a + b == b;
    } else {
      assert (a + b)[0] == a[0] && (a + b)[1..] == a[1..] + b;
      Utf16LengthAppend(a[1..], b);
    }
  }

  /** `canSubmit`: a code of at least four code units once trimmed, and no
      check in flight or done. */
  predicate CanSubmit(code: string, state: GateState)
    ensures CanSubmit(code, state) ==> state == Idle || state == Error
    ensures |Trim(code)| >= MinCodeLength ==> (CanSubmit(code, state) <==> state == Idle || state == Error)
    ensures 2 * |Trim(code)| < MinCodeLength ==> !CanSubmit(code, state)
  {
    Utf16Length(Trim(code)) >= MinCodeLength && state != Checking && state != Success
  }

  /** Two characters outside the Basic Multilingual Plane already make a
      code long enough to submit. */
  lemma AstralPairMaySubmit()
    ensures CanSubmit("\U{1F600}\U{1F600}", Idle)
  {
    var e := "\U{1F600}\U{1F600}";
    assert TrimStart(e) == e;
    assert TrimEnd(e) == e;
    assert e[1..][1..] == [];
  }

  /** Padding the code with white space never changes whether it may be
      submitted, and only the idle and error states ever allow it. */
  lemma {:induction false} CanSubmitIgnoresPadding(p: string, code: string, q: string, state: GateState)
    requires AllSpace(p) && AllSpace(q)
    ensures CanSubmit(p + code + q, state) == CanSubmit(code, state)
    ensures CanSubmit(code, state) ==> state == Idle || state == Error
  {
    TrimIgnoresPadding(p, code, q);
  }

  /** The outcome of the delayed check: the trimmed codes must agree. */
  function CheckOutcome(code: string, validCode: Option<string>): (st: GateState)
    ensures st == Success || st == Error
    ensures st == Success <==> Trim(code) == Trim(validCode.GetOr(""))
  {
    if Trim(code) == Trim(validCode.GetOr("")) then Success else Error
  }

  /** A code that differs from the configured one only by surrounding white
      space is accepted. */
  lemma {:induction false} PaddedCodeAccepted(p: string, valid: string, q: string)
    requires AllSpace(p) && AllSpace(q)
    ensures CheckOutcome(p + valid + q, Some(valid)) == Success
  {
    TrimIgnoresPadding(p, valid, q);
  }

  function StateWord(state: GateState): string {
    match state
    case Error => "error"
    case Success => "success"
    case _ => "idle"
  }

  /** `titleKey`. */
  function TitleKey(state: GateState): (k: string)
    ensures StartsWith(k, "cvGate.title.")
    ensures state == Error ==> k == "cvGate.title.error"
    ensures state == Success ==> k == "cvGate.title.success"
    ensures state == Idle || state == Checking ==> k == "cvGate.title.idle"
  {
    "cvGate.title." + StateWord(state)
  }

  /** `subtitleKey`. */
  function SubtitleKey(state: GateState): (k: string)
    ensures StartsWith(k, "cvGate.subtitle.")
    ensures state == Error ==> k == "cvGate.subtitle.error"
    ensures state == Success ==> k == "cvGate.subtitle.success"
    ensures state == Idle || state == Checking ==> k == "cvGate.subtitle.idle"
  {
    "cvGate.subtitle." + StateWord(state)
  }

  /** The headline only tells idle, error and success apart: a running
      check still shows the idle texts. */
  lemma KeysSeparateOutcomes(a: GateState, b: GateState)
    ensures TitleKey(a) == TitleKey(b) <==> (a == b || (a in {Idle, Checking} && b in {Idle, Checking}))
    ensures SubtitleKey(a) == SubtitleKey(b) <==> TitleKey(a) == TitleKey(b)
  {
    if StateWord(a) != StateWord(b) {
      // The three words have three different lengths.
      assert |TitleKey(a)| != |TitleKey(b)|;
      assert |SubtitleKey(a)| != |SubtitleKey(b)|;
    }
  }

  /** The state after the code field changes: an in-flight or finished
      check survives, anything else falls back to idle. */
  function StateAfterEdit(state: GateState): (st: GateState)
    ensures st == Checking <==> state == Checking
    ensures st == Success <==> state == Success
    ensures st != Error
  {
    if state != Checking && state != Success then Idle else state
  }

  // ------------------------------------------------------------ portal

  /** The comment node left where the dialog used to be. */
  datatype Placeholder = NoPlaceholder | Attached | Detached

  /** `portaled`, `placeholderNode` and whether the host element has a parent. */
  datatype Portal = Portal(portaled: bool, placeholder: Placeholder, hostHasParent: bool)

  /** `ensurePortal(open)`: move the dialog under `<body>` (leaving a
      placeholder behind) or back in front of its placeholder. */
  function PortalStep(p: Portal, open: bool): (q: Portal)
    ensures open && p.portaled ==> q == p
    ensures !open && !p.portaled ==> q == p
    ensures q != p ==> q.portaled == open && q.hostHasParent
    ensures q != p && open ==> q.placeholder == Attached
    ensures q != p && !open ==> q.placeholder == NoPlaceholder
  {
    if open then
      if p.portaled || !p.hostHasParent then p
      else Portal(true, Attached, true)
    else
      if !p.portaled || p.placeholder != Attached then p
      else Portal(false, NoPlaceholder, true)
  }

  /** A second call in the same direction changes nothing. */
  lemma PortalStepIdempotent(p: Portal, open: bool)
    ensures PortalStep(PortalStep(p, open), open) == PortalStep(p, open)
  {
  }

  /** Portalling an attached, unportalled dialog and then closing it puts
      everything back as it was. */
  lemma PortalRoundTrip(p: Portal)
    requires !p.portaled && p.hostHasParent && p.placeholder == NoPlaceholder
    ensures PortalStep(p, true).portaled
    ensures PortalStep(PortalStep(p, true), false) == p
  {
  }

  // ------------------------------------------------------------ the component

  datatype Emitted = Closed | Downloaded

  class CvGateModal {
    var open: bool
    var fileUrl: string
    var fileName: string
    var validCode: Option<string>

    var code: string
    var state: GateState
    var shake: bool
    var showHint: bool
    var portal: Portal
    /** Whether the page's scroll container carries the modal lock class. */
    var scrollLocked: bool
    /** Whether the page has a `[data-scroll-container]` element at all. */
    const hasScrollContainer: bool

    /** Outputs emitted so far, and the downloads started. */
    var events: seq<Emitted>
    var downloads: seq<(string, string)>

    /** Continuations waiting on a timer: the 450 ms check delay, the 600 ms
        delay before reporting the download, the 520 ms shake reset. */
    var pendingChecks: nat
    var pendingDownloads: nat
    var pendingShakeResets: nat

    constructor (fileUrl: string, validCode: Option<string>, hostHasParent: bool, hasScrollContainer: bool)
      ensures !open && this.fileUrl == fileUrl && fileName == "Jefferson-Sales-CV.pdf"
      ensures this.validCode == validCode && this.hasScrollContainer == hasScrollContainer
      ensures code == "" && state == Idle && !shake && !showHint && !scrollLocked
      ensures portal == Portal(false, NoPlaceholder, hostHasParent)
      ensures events == [] && downloads == []
      ensures pendingChecks == 0 && pendingDownloads == 0 && pendingShakeResets == 0
    {
      open := false;
      this.fileUrl := fileUrl;
      fileName := "Jefferson-Sales-CV.pdf";
      this.validCode := validCode;
      code := "";
      state := Idle;
      shake := false;
      showHint := false;
      portal := Portal(false, NoPlaceholder, hostHasParent);
      scrollLocked := false;
      this.hasScrollContainer := hasScrollContainer;
      events := [];
      downloads := [];
      pendingChecks, pendingDownloads, pendingShakeResets := 0, 0, 0;
    }

    /** `onCodeChange(v)`: `null` stands for the empty code. */
    method OnCodeChange(v: Option<string>)
      modifies this`code, this`state
      ensures code == v.GetOr("")
      ensures state == StateAfterEdit(old(state))
    {
      code := v.GetOr("");
      if state != Checking && state != Success {
        state := Idle;
      }
    }

    method EnsurePortal(open: bool)
      modifies this`portal
      ensures portal == PortalStep(old(portal), open)
    {
      if open {
        if portal.portaled {
          return;
        }
        if !portal.hostHasParent {
          return;
        }
        portal := Portal(true, Attached, true);
        return;
      }
      if !portal.portaled {
        return;
      }
      if portal.placeholder == NoPlaceholder {
        return;
      }
      if portal.placeholder == Detached {
        return;
      }
      portal := Portal(false, NoPlaceholder, true);
    }

    method ToggleScrollLock(locked: bool)
      modifies this`scrollLocked
      ensures scrollLocked == if hasScrollContainer then locked else old(scrollLocked)
    {
      if !hasScrollContainer {
        return;
      }
      scrollLocked := locked;
    }

    /** `ngOnChanges`: the framework has already written the new `open`
        input; only a change of `open` matters, and opening starts afresh. */
    method NgOnChanges(changed: set<string>)
      modifies this`portal, this`scrollLocked, this`state, this`code, this`showHint
      ensures "open" !in changed ==>
                portal == old(portal) && scrollLocked == old(scrollLocked) &&
                state == old(state) && code == old(code) && showHint == old(showHint)
      ensures "open" in changed ==>
                portal == PortalStep(old(portal), open) &&
                scrollLocked == (if hasScrollContainer then open else old(scrollLocked))
      ensures "open" in changed && open ==> state == Idle && code == "" && !showHint
      ensures "open" in changed && !open ==>
                state == old(state) && code == old(code) && showHint == old(showHint)
    {
      if "open" !in changed {
        return;
      }
      EnsurePortal(open);
      ToggleScrollLock(open);
      if !open {
        return;
      }
      state := Idle;
      code := "";
      showHint := false;
    }

    /** `close()`: refused while a check is running. */
    method Close()
      modifies this`open, this`portal, this`scrollLocked, this`events
      ensures old(state) == Checking ==>
                open == old(open) && portal == old(portal) &&
                scrollLocked == old(scrollLocked) && events == old(events)
      ensures old(state) != Checking ==>
                !open && portal == PortalStep(old(portal), false) &&
                scrollLocked == (if hasScrollContainer then false else old(scrollLocked)) &&
                events == old(events) + [Closed]
    {
      if state == Checking {
        return;
      }
      open := false;
      EnsurePortal(false);
      ToggleScrollLock(false);
      events := events + [Closed];
    }

    /** The synchronous part of `validateAndDownload()`, up to the first `await`. */
    method ValidateAndDownload()
      modifies this`state, this`pendingChecks
      ensures !old(CanSubmit(code, state)) ==> state == old(state) && pendingChecks == old(pendingChecks)
      ensures old(CanSubmit(code, state)) ==> state == Checking && pendingChecks == old(pendingChecks) + 1
    {
      if !CanSubmit(code, state) {
        return;
      }
      state := Checking;
      pendingChecks := pendingChecks + 1;
    }

    /** The 450 ms delay has passed: compare the codes as they are now. */
    method CheckDelayElapsed()
      requires pendingChecks > 0
      modifies this`state, this`shake, this`showHint, this`downloads, this`pendingChecks,
               this`pendingDownloads, this`pendingShakeResets
      ensures pendingChecks == old(pendingChecks) - 1
      ensures state == CheckOutcome(code, validCode)
      ensures state == Error ==>
                shake && showHint && pendingShakeResets == old(pendingShakeResets) + 1 &&
                downloads == old(downloads) && pendingDownloads == old(pendingDownloads)
      ensures state == Success ==>
                shake == old(shake) && showHint == old(showHint) &&
                pendingShakeResets == old(pendingShakeResets) &&
                downloads == old(downloads) + [(fileUrl, fileName)] &&
                pendingDownloads == old(pendingDownloads) + 1
    {
      pendingChecks := pendingChecks - 1;
      var ok := Trim(code) == Trim(validCode.GetOr(""));
      if !ok {
        state := Error;
        shake := true;
        pendingShakeResets := pendingShakeResets + 1;
        showHint := true;
        return;
      }
      state := Success;
      downloads := downloads + [(fileUrl, fileName)];
      pendingDownloads := pendingDownloads + 1;
    }

    /** The 600 ms delay after a successful check: report and close. */
    method DownloadDelayElapsed()
      requires pendingDownloads > 0
      modifies this`pendingDownloads, this`events, this`open, this`portal, this`scrollLocked
      ensures pendingDownloads == old(pendingDownloads) - 1
      ensures state == Checking ==>
                events == old(events) + [Downloaded] && open == old(open) &&
                portal == old(portal) && scrollLocked == old(scrollLocked)
      ensures state != Checking ==>
                events == old(events) + [Downloaded, Closed] && !open &&
                portal == PortalStep(old(portal), false) &&
                scrollLocked == (if hasScrollContainer then false else old(scrollLocked))
    {
      pendingDownloads := pendingDownloads - 1;
      events := events + [Downloaded];
      Close();
    }

    method ShakeElapsed()
      requires pendingShakeResets > 0
      modifies this`shake, this`pendingShakeResets
      ensures !shake && pendingShakeResets == old(pendingShakeResets) - 1
    {
      pendingShakeResets := pendingShakeResets - 1;
      shake := false;
    }

    /** Escape closes an open dialog. */
    method OnEsc()
      modifies this`open, this`portal, this`scrollLocked, this`events
      ensures !old(open) || old(state) == Checking ==>
                open == old(open) && portal == old(portal) &&
                scrollLocked == old(scrollLocked) && events == old(events)
      ensures old(open) && old(state) != Checking ==>
                !open && portal == PortalStep(old(portal), false) &&
                scrollLocked == (if hasScrollContainer then false else old(scrollLocked)) &&
                events == old(events) + [Closed]
    {
      if open {
        Close();
      }
    }

    /** Enter submits, but only while focus is inside the open dialog. */
    method OnEnter(focusInsideDialog: bool)
      modifies this`state, this`pendingChecks
      ensures old(open) && focusInsideDialog && old(CanSubmit(code, state)) ==>
                state == Checking && pendingChecks == old(pendingChecks) + 1
      ensures !(old(open) && focusInsideDialog && old(CanSubmit(code, state))) ==>
                state == old(state) && pendingChecks == old(pendingChecks)
    {
      if !open {
        return;
      }
      if focusInsideDialog {
        ValidateAndDownload();
      }
    }

    /** The destroy hook puts the dialog back and releases the scroll lock. */
    method OnDestroy()
      modifies this`portal, this`scrollLocked
      ensures portal == PortalStep(old(portal), false)
      ensures scrollLocked == (if hasScrollContainer then false else old(scrollLocked))
    {
      EnsurePortal(false);
      ToggleScrollLock(false);
    }
  }
}
