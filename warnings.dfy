/** The warning string animate_fun builds for each frame (code/polvis.py
    and polvis.py): which entries it appends, in which order, and their text. */
module FrameWarnings {
  import opened Wrappers
  import opened SeqOps

  // -------------------------------------------------------------- warnings

  /** The entries animate_fun may append to estr, in the order of the source. */
  datatype Warning =
    | PpcTooLow(ppc: int)
    | UnphysicalDop(dop: real)
    | LightLevelTooLow
    | InsufficientChunks
    | VoltageOutOfRange

  /** max(input_data) of an empty trace raises ValueError. */
  datatype FrameError = EmptyMax

  /** The position of an entry kind in the order animate_fun tests them. */
  function Rank(w: Warning): nat
  {
    match w
    case PpcTooLow(_) => 0
    case UnphysicalDop(_) => 1
    case LightLevelTooLow => 2
    case InsufficientChunks => 3
    case VoltageOutOfRange => 4
  }

  /** Python's int() of a float: truncation toward zero. */
  function Trunc(x: real): (t: int)
    ensures 0.0 <= x ==> 0 <= t && (t as real) <= x < (t as real) + 1.0
    ensures x < 0.0 ==> t <= 0 && (t as real) - 1.0 < x <= (t as real)
  {
    if x >= 0.0 then x.Floor else -((-x).Floor)
  }

  /** DOP - 1 > .03 for a finite DOP. A frame whose vector is not finite has
      no DOP here and draws no entry; numpy's inf DOP would draw one. */
  predicate Unphysical(dop: Option<real>)
  {
    dop.Some? && dop.value - 1.0 > 0.03
  }

  /** np.mean(input_data) < 2 or max(input_data) > 10, where the mean of an
      empty trace is nan and compares false. */
  predicate VoltageOff(input: seq<real>)
  {
    MeanBelow(input, 2.0) || (|input| > 0 && MaxOf(input) > 10.0)
  }

  /** Entries appear in test order, each kind at most once. */
  predicate Sorted(ws: seq<Warning>)
  {
    forall i, j :: 0 <= i < j < |ws| ==> Rank(ws[i]) < Rank(ws[j])
  }

  /** Whether animate_fun appends entry w: the test of its kind holds and
      it carries int(Nroll) or the DOP. */
  predicate Fires(w: Warning, nroll: real, dop: Option<real>, input: seq<real>, numChunks: int, checkVoltage: bool)
  {
    match w
    case PpcTooLow(n) => nroll < 180.0 && n == Trunc(nroll)
    case UnphysicalDop(v) => Unphysical(dop) && dop == Some(v)
    case LightLevelTooLow => MeanBelow(input, 0.08)
    case InsufficientChunks => numChunks < 3
    case VoltageOutOfRange => checkVoltage && VoltageOff(input)
  }

  /** `if c: estr += entry` on the list of entries. */
  function Push(ws: seq<Warning>, c: bool, w: Warning): seq<Warning>
  {
    if c then ws + [w] else ws
  }

  /** Every entry of ws ranks below r. */
  predicate RanksBelow(ws: seq<Warning>, r: nat)
  {
    forall i :: 0 <= i < |ws| ==> Rank(ws[i]) < r
  }

  /** A push adds w when c holds and nothing else. */
  lemma PushIn(ws: seq<Warning>, c: bool, w: Warning, x: Warning)
    ensures x in Push(ws, c, w) <==> x in ws || (c && x == w)
  {
  }

  /** Pushed after lower-ranked entries, an entry keeps the list sorted. */
  lemma PushSorted(ws: seq<Warning>, c: bool, w: Warning)
    requires Sorted(ws) && RanksBelow(ws, Rank(w))
    ensures Sorted(Push(ws, c, w)) && RanksBelow(Push(ws, c, w), Rank(w) + 1)
  {
  }

  /** The five pushes of animate_fun, in the source's order, for the given
      outcomes of the tests. */
  function Chain(ppcLow: bool, ppc: int, unphysical: bool, dop: real,
                 lowLight: bool, fewChunks: bool, voltageOff: bool): seq<Warning>
  {
    var w0 := Push([], ppcLow, PpcTooLow(ppc));
    var w1 := Push(w0, unphysical, UnphysicalDop(dop));
    var w2 := Push(w1, lowLight, LightLevelTooLow);
    var w3 := Push(w2, fewChunks, InsufficientChunks);
    Push(w3, voltageOff, VoltageOutOfRange)
  }

  /** Whether entry x is among those the test outcomes select. */
  predicate Selected(x: Warning, ppcLow: bool, ppc: int, unphysical: bool, dop: real,
                     lowLight: bool, fewChunks: bool, voltageOff: bool)
  {
    match x
    case PpcTooLow(n) => ppcLow && n == ppc
    case UnphysicalDop(v) => unphysical && v == dop
    case LightLevelTooLow => lowLight
    case InsufficientChunks => fewChunks
    case VoltageOutOfRange => voltageOff
  }

  /** The chain holds exactly the selected entries. */
  lemma ChainMember(ppcLow: bool, ppc: int, unphysical: bool, dop: real,
                    lowLight: bool, fewChunks: bool, voltageOff: bool, x: Warning)
    ensures x in Chain(ppcLow, ppc, unphysical, dop, lowLight, fewChunks, voltageOff)
            <==> Selected(x, ppcLow, ppc, unphysical, dop, lowLight, fewChunks, voltageOff)
  {
    var w0 := Push([], ppcLow, PpcTooLow(ppc));
    var w1 := Push(w0, unphysical, UnphysicalDop(dop));
    var w2 := Push(w1, lowLight, LightLevelTooLow);
    var w3 := Push(w2, fewChunks, InsufficientChunks);
    PushIn([], ppcLow, PpcTooLow(ppc), x);
    PushIn(w0, unphysical, UnphysicalDop(dop), x);
    PushIn(w1, lowLight, LightLevelTooLow, x);
    PushIn(w2, fewChunks, InsufficientChunks, x);
    PushIn(w3, voltageOff, VoltageOutOfRange, x);
  }

  /** The chain lists its entries in the source's order. */
  lemma ChainSorted(ppcLow: bool, ppc: int, unphysical: bool, dop: real,
                    lowLight: bool, fewChunks: bool, voltageOff: bool)
    ensures Sorted(Chain(ppcLow, ppc, unphysical, dop, lowLight, fewChunks, voltageOff))
  {
    var w0 := Push([], ppcLow, PpcTooLow(ppc));
    var w1 := Push(w0, unphysical, UnphysicalDop(dop));
    var w2 := Push(w1, lowLight, LightLevelTooLow);
    var w3 := Push(w2, fewChunks, InsufficientChunks);
    PushSorted([], ppcLow, PpcTooLow(ppc));
    PushSorted(w0, unphysical, UnphysicalDop(dop));
    PushSorted(w1, lowLight, LightLevelTooLow);
    PushSorted(w2, fewChunks, InsufficientChunks);
    PushSorted(w3, voltageOff, VoltageOutOfRange);
  }

  /** The entries animate_fun appends for one frame, in the source's order. */
  function Entries(nroll: real, dop: Option<real>, input: seq<real>, numChunks: int, checkVoltage: bool): seq<Warning>
  {
    Chain(nroll < 180.0, Trunc(nroll), Unphysical(dop), if dop.Some? then dop.value else 0.0,
          MeanBelow(input, 0.08), numChunks < 3, checkVoltage && VoltageOff(input))
  }

  /** The entries are exactly those whose test holds, in the source's order. */
  lemma EntriesExact(nroll: real, dop: Option<real>, input: seq<real>, numChunks: int, checkVoltage: bool)
    ensures var ws := Entries(nroll, dop, input, numChunks, checkVoltage);
      && (forall w :: w in ws <==> Fires(w, nroll, dop, input, numChunks, checkVoltage))
      && Sorted(ws)
  {
    forall w ensures w in Entries(nroll, dop, input, numChunks, checkVoltage) <==> Fires(w, nroll, dop, input, numChunks, checkVoltage) {
      EntryFires(nroll, dop, input, numChunks, checkVoltage, w);
    }
    ChainSorted(nroll < 180.0, Trunc(nroll), Unphysical(dop), if dop.Some? then dop.value else 0.0,
                MeanBelow(input, 0.08), numChunks < 3, checkVoltage && VoltageOff(input));
  }

  /** One entry is appended iff its test holds. */
  lemma EntryFires(nroll: real, dop: Option<real>, input: seq<real>, numChunks: int, checkVoltage: bool, w: Warning)
    ensures w in Entries(nroll, dop, input, numChunks, checkVoltage) <==> Fires(w, nroll, dop, input, numChunks, checkVoltage)
  {
    ChainMember(nroll < 180.0, Trunc(nroll), Unphysical(dop), if dop.Some? then dop.value else 0.0,
                MeanBelow(input, 0.08), numChunks < 3, checkVoltage && VoltageOff(input), w);
  }

  /** The warning entries of one frame: exactly the entries whose test
      holds, in the source's order. With the voltage check on, an empty
      trace makes max() raise before anything is shown. */
  function Warnings(nroll: real, dop: Option<real>, input: seq<real>, numChunks: int, checkVoltage: bool)
    : (r: Result<seq<Warning>, FrameError>)
    ensures r.Failure? <==> checkVoltage && |input| == 0
    ensures r.Success? ==> forall w :: w in r.value <==> Fires(w, nroll, dop, input, numChunks, checkVoltage)
    ensures r.Success? ==> Sorted(r.value)
  {
    EntriesExact(nroll, dop, input, numChunks, checkVoltage);
    if checkVoltage && |input| == 0 then Failure(EmptyMax)
    else Success(Entries(nroll, dop, input, numChunks, checkVoltage))
  }

  // ------------------------------------------------------------------ text

  /** The character of decimal digit d. */
  function Digit(d: nat): char
    requires d < 10
  {
    (('0' as int) + d) as char
  }

  /** str(n) for a natural number: its decimal digits, most significant first. */
  function NatString(n: nat): (s: string)
    ensures |s| >= 1
    ensures forall i :: 0 <= i < |s| ==> '0' <= s[i] <= '9'
  {
    if n < 10 then [Digit(n)] else NatString(n / 10) + [Digit(n % 10)]
  }

  /** The value of a string of decimal digits. */
  function DigitsValue(s: string): int
  {
    if s == [] then 0 else DigitsValue(s[..|s| - 1]) * 10 + ((s[|s| - 1] as int) - ('0' as int))
  }

  /** Reading back the digits of str(n) gives n. */
  lemma {:induction false} NatStringRoundTrip(n: nat)
    ensures DigitsValue(NatString(n)) == n
  {
    if n >= 10 {
      NatStringRoundTrip(n / 10);
      var s := NatString(n);
      assert s == NatString(n / 10) + [Digit(n % 10)];
      assert s[..|s| - 1] == NatString(n / 10);
      assert (s[|s| - 1] as int) - ('0' as int) == n % 10;
    }
  }

  /** str(n) of a Python int. */
  function IntString(n: int): (s: string)
    ensures n >= 0 ==> s == NatString(n)
    ensures n < 0 ==> s == "-" + NatString(-n)
  {
    if n < 0 then "-" + NatString(-n) else NatString(n)
  }

  /** The text one entry adds to estr; fmt stands for str(round(DOP, 3)). */
  function Message(w: Warning, fmt: real -> string): (m: string)
    ensures |m| >= 5
  {
    match w
    case PpcTooLow(n) => "PPC too low (" + IntString(n) + ")    "
    case UnphysicalDop(v) => "Unphysical DOP (" + fmt(v) + ")    "
    case LightLevelTooLow => "Light level too low    "
    case InsufficientChunks => "Insufficient chunks    "
    case VoltageOutOfRange => "Signal voltage out of range (adjust gain)      "
  }

  /** The texts of the entries, concatenated in order. */
  function Messages(ws: seq<Warning>, fmt: real -> string): (m: string)
    ensures |m| >= 5 * |ws|
  {
    if ws == [] then "" else Messages(ws[..|ws| - 1], fmt) + Message(ws[|ws| - 1], fmt)
  }

  /** estr: 'warnings: ' followed by the entries in order. It is exactly the
      prefix when there is no entry. */
  function Render(ws: seq<Warning>, fmt: real -> string): (s: string)
    ensures |s| >= 10 && s[..10] == "warnings: "
    ensures s == "warnings: " <==> ws == []
  {
    "warnings: " + Messages(ws, fmt)
  }

  /** One more entry appends its text. */
  lemma MessagesAppend(ws: seq<Warning>, w: Warning, fmt: real -> string)
    ensures Messages(ws + [w], fmt) == Messages(ws, fmt) + Message(w, fmt)
  {
    assert (ws + [w])[..|ws|] == ws;
  }

  /** `if c: estr += entry`, on the text. */
  method AppendEntry(estr: string, ghost ws: seq<Warning>, c: bool, w: Warning, fmt: real -> string)
    returns (e: string)
    requires estr == Render(ws, fmt)
    ensures e == Render(Push(ws, c, w), fmt)
  {
    e := estr;
    if c {
      MessagesAppend(ws, w, fmt);
      e := estr + Message(w, fmt);
    }
  }

  /** The estr-building tail of animate_fun: starts from 'warnings: ' and
      appends one entry per test that fires, in the source's order. */
  method WarningText(nroll: real, dop: Option<real>, input: seq<real>, numChunks: int,
                     checkVoltage: bool, fmt: real -> string)
    returns (r: Result<string, FrameError>)
    ensures r.Failure? <==> checkVoltage && |input| == 0
    ensures r.Success? ==> r.value == Render(Warnings(nroll, dop, input, numChunks, checkVoltage).value, fmt)
  {
    var ppcLow, ppc := nroll < 180.0, Trunc(nroll);
    var unphysical, v := Unphysical(dop), if dop.Some? then dop.value else 0.0;
    var lowLight, fewChunks := MeanBelow(input, 0.08), numChunks < 3;
    var voltage := VoltageTest(input, checkVoltage);
    if voltage.Failure? {
      return Failure(voltage.error);
    }
    EntriesAreChain(nroll, dop, input, numChunks, checkVoltage);
    var estr := ChainText(ppcLow, ppc, unphysical, v, lowLight, fewChunks, voltage.value, fmt);
    r := Success(estr);
  }

  /** The voltage test, run only when the scope is read live: the mean below
      2 V short-circuits the `or`, otherwise numpy's max of an empty trace raises. */
  method VoltageTest(input: seq<real>, checkVoltage: bool) returns (r: Result<bool, FrameError>)
    ensures r.Failure? <==> checkVoltage && |input| == 0
    ensures r.Success? ==> r.value == (checkVoltage && VoltageOff(input))
  {
    if !checkVoltage {
      return Success(false);
    }
    if !MeanBelow(input, 2.0) && |input| == 0 {
      return Failure(EmptyMax);
    }
    r := Success(MeanBelow(input, 2.0) || MaxOf(input) > 10.0);
  }

  /** Entries is the chain for the frame's test outcomes. */
  lemma EntriesAreChain(nroll: real, dop: Option<real>, input: seq<real>, numChunks: int, checkVoltage: bool)
    requires !(checkVoltage && |input| == 0)
    ensures Warnings(nroll, dop, input, numChunks, checkVoltage).value
         == Chain(nroll < 180.0, Trunc(nroll), Unphysical(dop), if dop.Some? then dop.value else 0.0,
                  MeanBelow(input, 0.08), numChunks < 3, checkVoltage && VoltageOff(input))
  {
  }

  /** The text of the chain, built one `if c: estr += entry` at a time. */
  method ChainText(ppcLow: bool, ppc: int, unphysical: bool, dop: real,
                   lowLight: bool, fewChunks: bool, voltageOff: bool, fmt: real -> string)
    returns (estr: string)
    ensures estr == Render(Chain(ppcLow, ppc, unphysical, dop, lowLight, fewChunks, voltageOff), fmt)
  {
    estr := "warnings: ";
    assert estr == Render([], fmt);
    ghost var w0 := Push([], ppcLow, PpcTooLow(ppc));
    estr := AppendEntry(estr, [], ppcLow, PpcTooLow(ppc), fmt);
    ghost var w1 := Push(w0, unphysical, UnphysicalDop(dop));
    estr := AppendEntry(estr, w0, unphysical, UnphysicalDop(dop), fmt);
    ghost var w2 := Push(w1, lowLight, LightLevelTooLow);
    estr := AppendEntry(estr, w1, lowLight, LightLevelTooLow, fmt);
    ghost var w3 := Push(w2, fewChunks, InsufficientChunks);
    estr := AppendEntry(estr, w2, fewChunks, InsufficientChunks, fmt);
    estr := AppendEntry(estr, w3, voltageOff, VoltageOutOfRange, fmt);
  }
}
