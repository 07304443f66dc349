/** The options page of src/options.tsx: the list of stored recordings
    (newest first), the selected recording and the loading flag, the delete
    handler, the events handed to the player and the duration text. */
module Options {
  import opened Types
  import opened Store

  // ---------------------------------------------------------------------
  // Pure parts.

  /** `data.reverse()`: the same elements, last first. */
  function Reversed<T>(s: seq<T>): (r: seq<T>)
    ensures |r| == |s|
    ensures forall i :: 0 <= i < |s| ==> r[i] == s[|s| - 1 - i]
    decreases |s|
  {
    if s == [] then [] else Reversed(s[1..]) + [s[0]]
  }

  /** Reversing keeps exactly the same elements. */
  lemma ReversedSameElements<T>(s: seq<T>)
    ensures forall x :: x in Reversed(s) <==> x in s
  {
    var r := Reversed(s);
    forall x | x in s ensures x in r {
      var i :| 0 <= i < |s| && s[i] == x;
      assert r[|s| - 1 - i] == x;
    }
    forall x | x in r ensures x in s {
      var i :| 0 <= i < |r| && r[i] == x;
      assert s[|s| - 1 - i] == x;
    }
  }

  /** The list after a successful load holds every stored record once, in
      strictly descending key order: the most recently saved comes first. */
  lemma NewestFirst(s: StoreState)
    requires WellFormed(s)
    ensures forall i, j :: 0 <= i < j < |Reversed(AllRecords(s))| ==>
      Reversed(AllRecords(s))[i].id > Reversed(AllRecords(s))[j].id
    ensures forall rec :: rec in Reversed(AllRecords(s)) ==> rec.id in s.rows && s.rows[rec.id] == rec
    ensures forall k :: k in s.rows ==> s.rows[k] in Reversed(AllRecords(s))
  {
    var all := AllRecords(s);
    var r := Reversed(all);
    var n := |all|;
    forall i, j | 0 <= i < j < n ensures r[i].id > r[j].id {
      assert r[i] == all[n - 1 - i] && r[j] == all[n - 1 - j];
    }
    ReversedSameElements(all);
    forall rec | rec in all ensures rec.id in s.rows && s.rows[rec.id] == rec {
      var i :| 0 <= i < n && all[i] == rec;
    }
  }

  /** The selection kept after the recording with key `id` was deleted:
      cleared exactly when the selected recording has that key. */
  function SelectionAfterDelete(sel: Option<Recording>, id: int): (r: Option<Recording>)
    ensures r == None <==> sel == None || sel.value.id == id
    ensures r != None ==> r == sel
  {
    if sel.Some? && sel.value.id == id then None else sel
  }

  /** `selectedRecording?.records || []`: the events the player gets. */
  function PlayerEvents(sel: Option<Recording>): (r: seq<Event>)
    ensures sel.Some? ==> r == sel.value.records
    ensures sel.None? ==> r == []
  {
    match sel
    case Some(rec) => rec.records
    case None => []
  }

  /** Deleting the selected recording leaves nothing selected and the player
      with no events; deleting another one changes neither. */
  lemma DeleteSelectedEmptiesPlayer(rec: Recording, id: int)
    ensures rec.id == id ==> PlayerEvents(SelectionAfterDelete(Some(rec), id)) == []
    ensures rec.id != id ==> PlayerEvents(SelectionAfterDelete(Some(rec), id)) == rec.records
  {
  }

  // The duration text: `${minutes}:${remainingSeconds.toString().padStart(2, "0")}`.

  function DigitChar(d: int): (c: char)
    requires 0 <= d < 10
    ensures '0' <= c <= '9' && c as int - '0' as int == d
  {
    ('0' as int + d) as char
  }

  /** `n.toString()` for a non-negative integer: its decimal digits. */
  function Decimal(n: nat): (s: string)
    ensures |s| >= 1 && '0' <= s[0] <= '9'
    decreases n
  {
    if n < 10 then [DigitChar(n)] else Decimal(n / 10) + [DigitChar(n % 10)]
  }

  /** `toString()` of an integer: a minus sign exactly when it is negative,
      then its decimal digits, which read back as its magnitude. */
  function IntToString(n: int): (r: string)
    ensures |r| >= 1
    ensures r[0] == '-' <==> n < 0
    ensures n >= 0 ==> AllDigits(r) && ParseDecimal(r) == n
    ensures n < 0 ==> AllDigits(r[1..]) && ParseDecimal(r[1..]) == -n
  {
    if n < 0 then
      DecimalRoundTrip(-n);
      "-" + Decimal(-n)
    else
      DecimalRoundTrip(n);
      Decimal(n)
  }

  /** `padStart(2, "0")`. */
  function PadStart2(s: string): (r: string)
    ensures |s| >= 2 ==> r == s
    ensures |s| < 2 ==> |r| == 2 && r[2 - |s|..] == s && forall i :: 0 <= i < 2 - |s| ==> r[i] == '0'
  {
    if |s| == 0 then "00" else if |s| == 1 then "0" + s else s
  }

  /** JavaScript's `seconds % 60`: the remainder takes the sign of the
      dividend, so it lies in (-60, 0] for a negative one. */
  function JsRemainder60(a: int): (r: int)
    ensures a >= 0 ==> r == a % 60
    ensures a < 0 ==> -60 < r <= 0 && (a - r) % 60 == 0
  {
    if a >= 0 then a % 60 else -((-a) % 60)
  }

  /** `formatDuration`: whole seconds (`Math.floor(duration / 1000)`, which
      is Dafny's `/` by a positive constant), then minutes and seconds. For a
      non-negative duration the text is `m:ss`, the whole minutes and the
      remaining whole seconds as two digits between 00 and 59, and it reads
      back as the whole seconds; a negative one prints with a minus sign. */
  function FormatDuration(duration: int): (r: string)
    ensures duration >= 0 ==>
      var seconds := duration / 1000;
      && 0 <= seconds % 60 < 60
      && r == Decimal(seconds / 60) + ":" + TwoDigits(seconds % 60)
      && ParseDuration(r) == Some(seconds)
    ensures |r| >= 4 && (r[0] == '-' <==> duration < 0)
  {
    MinutesSeconds(duration / 1000)
  }

  /** The text for a number of whole seconds: `Math.floor(seconds / 60)`,
      then JavaScript's `seconds % 60` padded to two characters. */
  function MinutesSeconds(seconds: int): (r: string)
    ensures |r| >= 4 && (r[0] == '-' <==> seconds < 0)
    ensures seconds >= 0 ==>
      && r == Decimal(seconds / 60) + ":" + TwoDigits(seconds % 60)
      && ParseDuration(r) == Some(seconds)
  {
    var minutes := IntToString(seconds / 60);
    var text := minutes + ":" + PadStart2(IntToString(JsRemainder60(seconds)));
    assert text[0] == minutes[0];
    if seconds >= 0 then
      SecondsParts(seconds);
      ParseMinutesSeconds(seconds);
      text
    else
      assert seconds / 60 < 0;
      text
  }

  /** A number below 100 as exactly two digits. */
  function TwoDigits(n: int): (r: string)
    requires 0 <= n < 100
    ensures |r| == 2 && AllDigits(r)
  {
    [DigitChar(n / 10), DigitChar(n % 10)]
  }

  /** Every character is a decimal digit (checked from the end, the way
      `ParseDecimal` reads). */
  predicate AllDigits(s: string)
    decreases |s|
  {
    s == [] || (AllDigits(s[..|s| - 1]) && '0' <= s[|s| - 1] <= '9')
  }

  function DigitValue(c: char): (d: nat)
    requires '0' <= c <= '9'
  {
    c as int - '0' as int
  }

  /** Reads a string of decimal digits back as a number. */
  function ParseDecimal(s: string): nat
    requires AllDigits(s)
    decreases |s|
  {
    if s == [] then 0
    else ParseDecimal(s[..|s| - 1]) * 10 + DigitValue(s[|s| - 1])
  }

  /** A number's decimal text is all digits and reads back as the number. */
  lemma {:induction false} DecimalRoundTrip(n: nat)
    ensures AllDigits(Decimal(n))
    ensures ParseDecimal(Decimal(n)) == n
    decreases n
  {
    if n >= 10 {
      var s := Decimal(n);
      DecimalRoundTrip(n / 10);
      assert s[..|s| - 1] == Decimal(n / 10);
    }
  }

  /** Reads a text `m:ss` back as a number of whole seconds. */
  function ParseDuration(text: string): Option<nat>
  {
    if |text| >= 4 && text[|text| - 3] == ':' && AllDigits(text[..|text| - 3]) && AllDigits(text[|text| - 2..]) then
      Some(ParseDecimal(text[..|text| - 3]) * 60 + ParseDecimal(text[|text| - 2..]))
    else None
  }

  /** The seconds part: `toString()` then `padStart(2, "0")` of a number
      of seconds below a minute gives its two digits, which read back as it. */
  lemma {:induction false} PaddedSeconds(ss: int)
    requires 0 <= ss < 60
    ensures PadStart2(IntToString(ss)) == TwoDigits(ss)
    ensures ParseDecimal(TwoDigits(ss)) == ss
  {
    if ss < 10 {
      assert IntToString(ss) == [DigitChar(ss)];
    } else {
      assert Decimal(ss / 10) == [DigitChar(ss / 10)];
    }
    var digits := TwoDigits(ss);
    var first := [DigitChar(ss / 10)];
    assert digits[..1] == first;
    assert first[..0] == [];
    assert ParseDecimal(first) == ss / 10;
    assert ParseDecimal(digits) == ParseDecimal(first) * 10 + ss % 10;
  }

  /** The text made of the whole minutes of a number of seconds, a colon and
      the remaining seconds as two digits reads back as that number. */
  lemma ParseMinutesSeconds(seconds: nat)
    ensures ParseDuration(Decimal(seconds / 60) + ":" + TwoDigits(seconds % 60)) == Some(seconds)
  {
    var m, ss := seconds / 60, seconds % 60;
    assert m * 60 + ss == seconds && 0 <= ss < 60;
    ParseMinutesAndSeconds(m, ss);
  }

  lemma ParseMinutesAndSeconds(m: nat, ss: int)
    requires 0 <= ss < 60
    ensures ParseDuration(Decimal(m) + ":" + TwoDigits(ss)) == Some(m * 60 + ss)
  {
    var minutes, two := Decimal(m), TwoDigits(ss);
    DecimalRoundTrip(m);
    PaddedSeconds(ss);
    assert |minutes| >= 1 && AllDigits(minutes) && ParseDecimal(minutes) == m;
    assert |two| == 2 && AllDigits(two) && ParseDecimal(two) == ss;
    SplitAtColon(minutes, two);
  }

  /** A text made of at least one digit, a colon and two digits reads back
      as the number before the colon times 60 plus the number after it. */
  lemma SplitAtColon(minutes: string, two: string)
    requires |minutes| >= 1 && AllDigits(minutes)
    requires |two| == 2 && AllDigits(two)
    ensures ParseDuration(minutes + ":" + two) == Some(ParseDecimal(minutes) * 60 + ParseDecimal(two))
  {
    ColonParts(minutes, two);
    ParseDurationOf(minutes + ":" + two);
  }

  /** `ParseDuration` of a text whose parts are digit strings. */
  lemma ParseDurationOf(text: string)
    requires |text| >= 4 && text[|text| - 3] == ':'
    requires AllDigits(text[..|text| - 3]) && AllDigits(text[|text| - 2..])
    ensures ParseDuration(text) == Some(ParseDecimal(text[..|text| - 3]) * 60 + ParseDecimal(text[|text| - 2..]))
  {
  }

  /** Where the parts of `minutes:two` sit in it, counted from its end. */
  lemma ColonParts(minutes: string, two: string)
    requires |two| == 2
    ensures var text := minutes + ":" + two;
      && |text| == |minutes| + 3
      && text[|text| - 3] == ':'
      && text[..|text| - 3] == minutes
      && text[|text| - 2..] == two
  {
    var text := minutes + ":" + two;
    assert text == minutes + (":" + two);
    assert text[..|minutes|] == minutes;
    assert text[|minutes| + 1..] == two;
  }

  /** The minutes' `toString()` is their decimal digits, and the padded
      remainder is the seconds below a minute as two digits. */
  lemma SecondsParts(seconds: nat)
    ensures IntToString(seconds / 60) == Decimal(seconds / 60)
    ensures PadStart2(IntToString(JsRemainder60(seconds))) == TwoDigits(seconds % 60)
  {
    assert JsRemainder60(seconds) == seconds % 60;
    PaddedSeconds(seconds % 60);
  }

  // ---------------------------------------------------------------------
  // The page component's state and handlers.

  class OptionsPage {
    var recordings: seq<Recording>
    var selected: Option<Recording>
    var loading: bool

    /** The state on first render: no recordings, nothing selected, loading. */
    constructor ()
      ensures recordings == [] && selected == None && loading
    {
      recordings := [];
      selected := None;
      loading := true;
    }

    /** `loadRecordings`: the list becomes the store's records newest first;
        a failed read leaves it as it was. Either way loading ends. */
    method LoadRecordings(store: RecordingStore, fault: Option<string>)
      requires store.Valid()
      modifies this
      ensures !loading && selected == old(selected)
      ensures fault.None? ==> recordings == Reversed(AllRecords(store.Snapshot()))
      ensures fault.Some? ==> recordings == old(recordings)
    {
      loading := true;
      var res := store.GetAllRecordings(fault);
      if res.Ok? {
        recordings := Reversed(res.value);
      }
      loading := false;
    }

    /** Clicking a recording's card selects it. */
    method Select(rec: Recording)
      modifies this
      ensures selected == Some(rec)
      ensures recordings == old(recordings) && loading == old(loading)
    {
      selected := Some(rec);
    }

    /** `handleDelete`. `confirmed` is the user's answer to `confirm()`;
        `deleteFault` and `loadFault` are the storage errors met by the delete
        and by the reload that follows it, if they fail. */
    method HandleDelete(store: RecordingStore, id: int, confirmed: bool,
                        deleteFault: Option<string>, loadFault: Option<string>)
      requires store.Valid()
      modifies this, store
      ensures store.Valid()
      ensures !confirmed || deleteFault.Some? ==>
        && store.Snapshot() == old(store.Snapshot())
        && recordings == old(recordings) && selected == old(selected) && loading == old(loading)
      ensures confirmed && deleteFault.None? ==>
        && store.Snapshot() == Removed(old(store.Snapshot()), id)
        && selected == SelectionAfterDelete(old(selected), id)
        && !loading
        && (loadFault.None? ==> recordings == Reversed(AllRecords(store.Snapshot())))
        && (loadFault.Some? ==> recordings == old(recordings))
    {
      if !confirmed {
        return;
      }
      var res := store.DeleteRecording(id, deleteFault);
      if res.Ok? {
        if selected.Some? && selected.value.id == id {
          selected := None;
        }
        LoadRecordings(store, loadFault);
      }
    }
  }
}
