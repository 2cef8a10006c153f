/** The contact section (`section-contact`): a WhatsApp link and a masked
    display of the number, a mail link, the CV gate's open flag, a
    short-lived toast and a guarded "open in a new tab". The URL encoder
    and the clipboard arrive as inputs. */
module Contact {
  import opened Common

  /** The shipped number, `+5521981066188`, written in its display groups. */
  const WhatsappNumber: string := "+55" + "21" + "98106" + "6188"
  const Email: string := "jeffersonoliveirasales@gmail.com"

  predicate IsDigit(c: char) {
    '0' <= c <= '9'
  }

  predicate AllDigits(s: string) {
    forall i :: 0 <= i < |s| ==> IsDigit(s[i])
  }

  /** `replace(/\D/g, '')`: the digits of `s`, in order. */
  function Digits(s: string): (d: string)
    ensures |d| <= |s|
  {
    if s == [] then []
    else if IsDigit(s[0]) then [s[0]] + Digits(s[1..])
    else Digits(s[1..])
  }

  /** Only digits are kept. */
  lemma {:induction false} DigitsAreDigits(s: string)
    ensures AllDigits(Digits(s))
    decreases |s|
  {
    if s != [] {
      DigitsAreDigits(s[1..]);
    }
  }

  lemma {:induction false} DigitsConcat(a: string, b: string)
    ensures Digits(a + b) == Digits(a) + Digits(b)
    decreases |a|
  {
    if a != [] {
      assert (a + b)[1..] == a[1..] + b;
      DigitsConcat(a[1..], b);
    } else {
      assert a + b == b;
    }
  }

  /** A string of digits is its own digit string. */
  lemma {:induction false} DigitsOfDigits(s: string)
    requires AllDigits(s)
    ensures Digits(s) == s
    decreases |s|
  {
    if s != [] {
      DigitsOfDigits(s[1..]);
    }
  }

  /** Taking the digits twice changes nothing. */
  lemma DigitsIdempotent(s: string)
    ensures Digits(Digits(s)) == Digits(s)
  {
    DigitsAreDigits(s);
    DigitsOfDigits(Digits(s));
  }

  function Least(a: nat, b: nat): (m: nat)
    ensures m <= a && m <= b && (m == a || m == b)
  {
    if a <= b then a else b
  }

  /** `s.slice(start, end)` for non-negative bounds. */
  function Slice(s: string, start: nat, end: nat): (r: string)
    ensures start <= end <= |s| ==> r == s[start..end]
    ensures start < |s| && |s| < end ==> r == s[start..]
    ensures |s| <= start || end <= start ==> r == ""
  {
    if start >= |s| || end <= start then ""
    else s[start..Least(end, |s|)]
  }

  /** `wa.me` link: the number's digits and the encoded message. */
  function WhatsappUrl(number: string, message: string, encode: string -> string): (url: string)
    ensures StartsWith(url, "https://wa.me/")
    ensures var d := Digits(number);
            |url| >= 14 + |d| && url[14..14 + |d|] == d && AllDigits(url[14..14 + |d|])
    ensures StartsWith(url[14 + |Digits(number)|..], "?text=")
    ensures |url| == 20 + |Digits(number)| + |encode(message)|
    ensures url[20 + |Digits(number)|..] == encode(message)
  {
    var d := Digits(number);
    DigitsAreDigits(number);
    var url := "https://wa.me/" + d + "?text=" + encode(message);
    assert url == "https://wa.me/" + (d + ("?text=" + encode(message)));
    assert url[14..][..|d|] == d;
    assert url[14 + |d|..] == "?text=" + encode(message);
    assert url[20 + |d|..] == encode(message);
    url
  }

  /** `+CC (DD) XXXXX-XXXX` from its four groups. */
  function MaskOf(country: string, ddd: string, part1: string, part2: string): string {
    "+" + country + " (" + ddd + ") " + part1 + "-" + part2
  }

  /** `whatsappNumberMasked`: the digits split into country code, area
      code and the two halves of the local number; the number is shown
      unchanged when a part is missing or fewer than 8 digits follow the
      area code. */
  function Masked(number: string): (m: string)
    ensures |Digits(number)| < 12 ==> m == number
    ensures |Digits(number)| >= 12 ==>
              |m| >= 15 && m[0] == '+' && m[3] == ' ' && m[4] == '(' && m[7] == ')' && m[8] == ' ' && m[14] == '-'
  {
    var digits := Digits(number);
    var country := Slice(digits, 0, 2);
    var ddd := Slice(digits, 2, 4);
    var rest := digits[Least(4, |digits|)..];
    var part1 := Slice(rest, 0, 5);
    var part2 := Slice(rest, 5, 9);
    if country == "" || ddd == "" || |rest| < 8 then number
    else
      MaskOfShape(country, ddd, part1, part2);
      MaskOf(country, ddd, part1, part2)
  }

  /** The masked form spelled out from the digits: it applies from 12
      digits on and keeps at most 13 of them. */
  lemma MaskedParts(number: string)
    ensures var d := Digits(number);
            (|d| < 12 ==> Masked(number) == number) &&
            (|d| >= 12 ==> Masked(number) == MaskOf(d[..2], d[2..4], d[4..9], d[9..Least(13, |d|)]))
  {
    var d := Digits(number);
    if |d| >= 12 {
      var rest := d[4..];
      assert Slice(rest, 0, 5) == d[4..9];
      assert Slice(rest, 5, 9) == d[9..Least(13, |d|)];
    }
  }

  /** Where the separators of a mask sit. */
  lemma MaskOfShape(country: string, ddd: string, part1: string, part2: string)
    requires |country| == 2 && |ddd| == 2 && |part1| == 5
    ensures var r := MaskOf(country, ddd, part1, part2);
            |r| == 15 + |part2| &&
            r[0] == '+' && r[3] == ' ' && r[4] == '(' && r[7] == ')' && r[8] == ' ' && r[14] == '-'
  {
  }

  /** The digits of a mask are its four groups run together. */
  lemma MaskOfDigits(country: string, ddd: string, part1: string, part2: string)
    requires AllDigits(country) && AllDigits(ddd) && AllDigits(part1) && AllDigits(part2)
    ensures Digits(MaskOf(country, ddd, part1, part2)) == country + ddd + part1 + part2
  {
    var a := "+" + country + " (" + ddd + ") " + part1;
    DigitsConcat(a + "-", part2);
    DigitsConcat(a, "-");
    NoDigits("-");
    MaskHeadDigits(country, ddd, part1);
    DigitsOfDigits(part2);
  }

  lemma MaskHeadDigits(country: string, ddd: string, part1: string)
    requires AllDigits(country) && AllDigits(ddd) && AllDigits(part1)
    ensures Digits("+" + country + " (" + ddd + ") " + part1) == country + ddd + part1
  {
    NoDigits("+");
    AppendDigits("+", "", country);
    assert "" + country == country;
    AppendSeparator("+" + country, country, " (");
    AppendDigits("+" + country + " (", country, ddd);
    AppendSeparator("+" + country + " (" + ddd, country + ddd, ") ");
    AppendDigits("+" + country + " (" + ddd + ") ", country + ddd, part1);
  }

  lemma AppendDigits(a: string, da: string, b: string)
    requires Digits(a) == da && AllDigits(b)
    ensures Digits(a + b) == da + b
  {
    DigitsConcat(a, b);
    DigitsOfDigits(b);
  }

  lemma AppendSeparator(a: string, da: string, sep: string)
    requires Digits(a) == da && forall i :: 0 <= i < |sep| ==> !IsDigit(sep[i])
    ensures Digits(a + sep) == da
  {
    DigitsConcat(a, sep);
    NoDigits(sep);
  }

  /** A text without digits has none to keep. */
  lemma {:induction false} NoDigits(s: string)
    requires forall i :: 0 <= i < |s| ==> !IsDigit(s[i])
    ensures Digits(s) == ""
    decreases |s|
  {
    if s != [] {
      NoDigits(s[1..]);
    }
  }

  /** With 12 or more digits the mask has its separators at fixed places
      and shows the first 13 digits (the country code, the area code and
      a local number of 8 or 9 digits) in order; with fewer the number is
      shown as it was given. */
  lemma MaskedFormat(number: string)
    ensures |Digits(number)| < 12 ==> Masked(number) == number
    ensures var r := Masked(number);
            var d := Digits(number);
            |d| >= 12 ==>
              (|r| == 18 || |r| == 19) && |r| == 6 + Least(13, |d|) &&
              r[0] == '+' && r[3] == ' ' && r[4] == '(' && r[7] == ')' && r[8] == ' ' && r[14] == '-' &&
              Digits(r) == d[..Least(13, |d|)]
  {
    MaskedParts(number);
    DigitsAreDigits(number);
    if |Digits(number)| >= 12 {
      MaskOfGroups(Digits(number));
    }
  }

  /** The mask built from a run of at least 12 digits. */
  lemma MaskOfGroups(d: string)
    requires AllDigits(d) && |d| >= 12
    ensures var n := Least(13, |d|);
            var r := MaskOf(d[..2], d[2..4], d[4..9], d[9..n]);
            |r| == 6 + n &&
            r[0] == '+' && r[3] == ' ' && r[4] == '(' && r[7] == ')' && r[8] == ' ' && r[14] == '-' &&
            Digits(r) == d[..n]
  {
    var n := Least(13, |d|);
    var country, ddd, part1, part2 := d[..2], d[2..4], d[4..9], d[9..n];
    assert AllDigits(country) && AllDigits(ddd) && AllDigits(part1) && AllDigits(part2);
    MaskOfShape(country, ddd, part1, part2);
    MaskOfDigits(country, ddd, part1, part2);
    assert country + ddd + part1 + part2 == d[..n];
  }

  lemma ShippedDigits()
    ensures Digits(WhatsappNumber) == "55" + "21" + "98106" + "6188"
  {
    DigitsConcat("+55" + "21" + "98106", "6188");
    DigitsConcat("+55" + "21", "98106");
    DigitsConcat("+55", "21");
    assert Digits("+55") == "55";
    assert Digits("21") == "21";
    assert Digits("98106") == "98106";
    assert Digits("6188") == "6188";
  }

  /** The shipped number is shown as `+55 (21) 98106-6188`. */
  lemma ShippedNumberMasked()
    ensures Masked(WhatsappNumber) == "+55 (21) 98106-6188"
  {
    ShippedDigits();
    MaskedParts(WhatsappNumber);
    assert |Digits(WhatsappNumber)| == 13;
    var d := "55" + "21" + "98106" + "6188";
    assert d[..2] == "55";
    assert d[2..4] == "21";
    assert d[4..9] == "98106";
    assert d[9..13] == "6188";
  }

  /** `mailtoUrl`. */
  function MailtoUrl(email: string): (url: string)
    ensures StartsWith(url, "mailto:") && url[7..] == email
  {
    var url := "mailto:" + email;
    assert url[..7] == "mailto:";
    url
  }

  /** The section's state: the CV gate, the toast and the URLs opened in new tabs. */
  class SectionContact {
    var cvGateOpen: bool
    var toast: Option<string>
    /** Toast-clearing timers (1600 ms) not yet fired. */
    var toastTimers: nat
    /** Clipboard writes not yet settled. */
    var pendingCopies: nat
    /** URLs handed to `window.open`. */
    var openedUrls: seq<string>

    constructor ()
      ensures !cvGateOpen && toast == None && toastTimers == 0 && pendingCopies == 0 && openedUrls == []
    {
      cvGateOpen := false;
      toast := None;
      toastTimers := 0;
      pendingCopies := 0;
      openedUrls := [];
    }

    method OpenCvGate()
      modifies this`cvGateOpen
      ensures cvGateOpen
    {
      cvGateOpen := true;
    }

    method OnCvGateClosed()
      modifies this`cvGateOpen
      ensures !cvGateOpen
    {
      cvGateOpen := false;
    }

    /** Shows `msg` and arms the timer that clears it. */
    method ShowToast(msg: string)
      modifies this`toast, this`toastTimers
      ensures toast == Some(msg) && toastTimers == old(toastTimers) + 1
    {
      toast := Some(msg);
      toastTimers := toastTimers + 1;
    }

    /** `onCvDownloaded`: the gate closes and "downloaded" is shown. */
    method OnCvDownloaded()
      modifies this`cvGateOpen, this`toast, this`toastTimers
      ensures !cvGateOpen && toast == Some("downloaded") && toastTimers == old(toastTimers) + 1
    {
      cvGateOpen := false;
      ShowToast("downloaded");
    }

    /** A toast timer fires and clears whatever toast is shown. */
    method ToastElapsed()
      requires toastTimers > 0
      modifies this`toast, this`toastTimers
      ensures toast == None && toastTimers == old(toastTimers) - 1
    {
      toastTimers := toastTimers - 1;
      toast := None;
    }

    /** `copy`: without a clipboard "copied" shows at once; otherwise it
        shows when the write settles. */
    method Copy(hasClipboard: bool)
      modifies this`toast, this`toastTimers, this`pendingCopies
      ensures !hasClipboard ==> toast == Some("copied") && toastTimers == old(toastTimers) + 1 &&
                                pendingCopies == old(pendingCopies)
      ensures hasClipboard ==> toast == old(toast) && toastTimers == old(toastTimers) &&
                               pendingCopies == old(pendingCopies) + 1
    {
      if !hasClipboard {
        ShowToast("copied");
        return;
      }
      pendingCopies := pendingCopies + 1;
    }

    /** The clipboard write settles: success and failure alike show
        "copied". */
    method ClipboardSettled(succeeded: bool)
      requires pendingCopies > 0
      modifies this`toast, this`toastTimers, this`pendingCopies
      ensures toast == Some("copied") && toastTimers == old(toastTimers) + 1
      ensures pendingCopies == old(pendingCopies) - 1
    {
      pendingCopies := pendingCopies - 1;
      if succeeded {
        ShowToast("copied");
      } else {
        ShowToast("copied");
      }
    }

    /** `openExternal`: an empty URL opens nothing. */
    method OpenExternal(url: string)
      modifies this`openedUrls
      ensures url == "" ==> openedUrls == old(openedUrls)
      ensures url != "" ==> openedUrls == old(openedUrls) + [url]
    {
      if url == "" {
        return;
      }
      openedUrls := openedUrls + [url];
    }
  }
}
