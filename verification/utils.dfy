/**
 * Display helpers: truncation with an ellipsis, initials from a name, the
 * relative-time bucket and the `-` shown for missing values.  The locale
 * formatting itself (`Intl.DateTimeFormat`, `Intl.NumberFormat`) is not
 * modelled: a formatted value is represented by the value it formats.
 */
module Utils {
  import opened Wrappers
  import opened Text

  // ----- truncate -----

  /** `text.slice(0, n)`: a negative end counts from the end of the text. */
  function SliceTo(text: string, n: int): (r: string)
    ensures |r| <= |text| && r == text[..|r|]
    ensures 0 <= n <= |text| ==> |r| == n
    ensures n < 0 ==> |r| == if |text| + n < 0 then 0 else |text| + n
  {
    if n >= |text| then text
    else if n >= 0 then text[..n]
    else if |text| + n < 0 then []
    else text[..|text| + n]
  }

  /** `truncate`: empty for no text, the text when it fits, otherwise its first `length` characters and `...`. */
  function Truncate(text: Option<string>, length: int): (r: string)
    ensures text.None? || text == Some("") ==> r == ""
    ensures text.Some? && text.value != "" && |text.value| <= length ==> r == text.value
    ensures text.Some? && 0 <= length < |text.value| ==> r == text.value[..length] + "..."
  {
    if text.None? || text.value == "" then ""
    else if |text.value| <= length then text.value
    else SliceTo(text.value, length) + "..."
  }

  /** A truncated text is never longer than the limit plus the ellipsis, and starts like the text. */
  lemma TruncateBounds(text: string, length: nat)
    ensures |Truncate(Some(text), length)| <= length + 3
    ensures var r := Truncate(Some(text), length);
            if |text| <= length then r == text else r[..length] == text[..length] && r[length..] == "..."
  {
  }

  // ----- getInitials -----

  /**
   * `s.split(/\s+/)`: the pieces between maximal whitespace runs, with an
   * empty first or last piece when `s` starts or ends with whitespace, and
   * `[""]` for the empty string.
   */
  function SplitOnSpaces(s: string): (ps: seq<string>)
    ensures |ps| >= 1
    decreases |s|
  {
    var w := WordAtStart(s);
    var rest := s[|w|..];
    if rest == [] then [w]
    else
      var next := TrimStart(rest);
      assert IsSpace(rest[0]);
      [w] + SplitOnSpaces(next)
  }

  /** Leading whitespace does not change the words. */
  lemma {:induction false} WordsSkipSpaces(s: string)
    ensures Words(TrimStart(s)) == Words(s)
    decreases |s|
  {
    if s != [] && IsSpace(s[0]) {
      WordsSkipSpaces(s[1..]);
    }
  }

  /** On a string with no outer whitespace the regular-expression split gives exactly the words. */
  lemma {:induction false} SplitOfTrimmedIsWords(t: string)
    requires t != [] && !IsSpace(t[0]) && !IsSpace(t[|t| - 1])
    ensures SplitOnSpaces(t) == Words(t)
    decreases |t|
  {
    var w := WordAtStart(t);
    var rest := t[|w|..];
    assert Words(t) == [w] + Words(rest);
    if rest != [] {
      var next := TrimStart(rest);
      WordsSkipSpaces(rest);
      assert IsSpace(rest[0]);
      assert |next| >= 1 by {
        TrimStartDropsSpaces(rest);
        assert !IsSpace(rest[|rest| - 1]);
      }
      assert next[|next| - 1] == t[|t| - 1];
      SplitOfTrimmedIsWords(next);
    }
  }

  /** `getInitials`. */
  function GetInitials(name: Option<string>): (r: string)
    ensures name.None? || name == Some("") ==> r == "?"
    ensures |r| <= 2
  {
    if name.None? || name.value == "" then "?"
    else
      InitialsOf(SplitOnSpaces(Trim(name.value)))
  }

  /** `s.charAt(0)`: the first character, or the empty string. */
  function FirstChar(s: string): (r: string)
    ensures |r| <= 1 && |r| <= |s| && r == s[..|r|]
    ensures s != [] ==> |r| == 1
  {
    if s == [] then "" else [s[0]]
  }

  /**
   * For a name with some non-whitespace text, the initials are the
   * upper-cased first letters of its first and last words, or of its only
   * word.
   */
  lemma InitialsFromWords(name: string)
    requires Trim(name) != ""
    ensures var ws := Words(Trim(name));
            && |ws| >= 1 && ws[0] != [] && ws[|ws| - 1] != []
            && (|ws| == 1 ==> GetInitials(Some(name)) == [UpperChar(ws[0][0])])
            && (|ws| > 1 ==> GetInitials(Some(name)) == [UpperChar(ws[0][0]), UpperChar(ws[|ws| - 1][0])])
  {
    hide *;
    var t := Trim(name);
    TrimmedHasWords(t);
    SplitOfTrimmedIsWords(t);
    InitialsOfPresentName(name);
    InitialsOfWords(Words(t));
  }

  lemma TrimmedHasWords(t: string)
    requires t != [] && !IsSpace(t[0])
    ensures |Words(t)| >= 1 && IsWord(Words(t)[0]) && IsWord(Words(t)[|Words(t)| - 1])
    ensures Words(t)[0] != [] && Words(t)[|Words(t)| - 1] != []
  {
    assert !IsSpace(t[0]);
  }

  lemma InitialsOfPresentName(name: string)
    requires name != ""
    ensures GetInitials(Some(name)) == InitialsOf(SplitOnSpaces(Trim(name)))
  {
  }

  lemma InitialsOfWords(ws: seq<string>)
    requires |ws| >= 1 && IsWord(ws[0]) && IsWord(ws[|ws| - 1])
    ensures |ws| == 1 ==> InitialsOf(ws) == [UpperChar(ws[0][0])]
    ensures |ws| > 1 ==> InitialsOf(ws) == [UpperChar(ws[0][0]), UpperChar(ws[|ws| - 1][0])]
  {
    UpperInitials(ws[0], ws[|ws| - 1]);
  }

  /** The initials `getInitials` takes from a list of parts. */
  function InitialsOf(parts: seq<string>): string
    requires |parts| >= 1
  {
    if |parts| == 1 then Upper(FirstChar(parts[0]))
    else Upper(FirstChar(parts[0]) + FirstChar(parts[|parts| - 1]))
  }

  lemma UpperInitials(a: string, b: string)
    requires a != [] && b != []
    ensures Upper(FirstChar(a)) == [UpperChar(a[0])]
    ensures Upper(FirstChar(a) + FirstChar(b)) == [UpperChar(a[0]), UpperChar(b[0])]
  {
    assert FirstChar(a) + FirstChar(b) == [a[0], b[0]];
  }

  /** A name that is only whitespace gets no initials at all rather than `?`. */
  lemma BlankNameHasNoInitials(name: string)
    requires name != "" && Trim(name) == ""
    ensures GetInitials(Some(name)) == ""
  {
  }

  /** `getInitials` with a blank name treated like a missing one: never empty. */
  function GetInitialsOrMark(name: Option<string>): (r: string)
    ensures r != "" && |r| <= 2
    ensures name.None? || Trim(name.value) == "" ==> r == "?"
    ensures name.Some? && Trim(name.value) != "" ==> r == GetInitials(name)
  {
    if name.None? || Trim(name.value) == "" then "?"
    else
      InitialsFromWords(name.value);
      GetInitials(name)
  }

  // ----- formatRelativeTime and the `-` fallbacks -----

  /** What `formatRelativeTime` shows; the absolute date is left to `formatDate`. */
  datatype RelativeTime = Dash | JustNow | MinutesAgo(minutes: int) | HoursAgo(hours: int)
                        | DaysAgo(days: int) | AbsoluteDate(date: string)

  /**
   * `formatRelativeTime`, given the whole seconds elapsed since `date`
   * (`Math.floor((now - then) / 1000)`, computed by the caller from the
   * clock).
   */
  function FormatRelativeTime(date: Option<string>, diffInSeconds: int): (r: RelativeTime)
    ensures r == Dash <==> date.None? || date == Some("")
    ensures r == JustNow <==> date.Some? && date.value != "" && diffInSeconds < 60
    ensures r.MinutesAgo? ==> 1 <= r.minutes <= 59 && r.minutes * 60 <= diffInSeconds < (r.minutes + 1) * 60
    ensures r.HoursAgo? ==> 1 <= r.hours <= 23 && r.hours * 3600 <= diffInSeconds < (r.hours + 1) * 3600
    ensures r.DaysAgo? ==> 1 <= r.days <= 6 && r.days * 86400 <= diffInSeconds < (r.days + 1) * 86400
    ensures r.AbsoluteDate? <==> date.Some? && date.value != "" && diffInSeconds >= 604800
  {
    if date.None? || date.value == "" then Dash
    else if diffInSeconds < 60 then JustNow
    else if diffInSeconds < 3600 then MinutesAgo(diffInSeconds / 60)
    else if diffInSeconds < 86400 then HoursAgo(diffInSeconds / 3600)
    else if diffInSeconds < 604800 then DaysAgo(diffInSeconds / 86400)
    else AbsoluteDate(date.value)
  }

  /** The text shown for a label; `formatted` is what `formatDate` makes of the date. */
  function RelativeTimeText(r: RelativeTime, formatted: string): string {
    match r
    case Dash => "-"
    case JustNow => "לפני רגע"
    case MinutesAgo(m) => "לפני " + IntToString(m) + " דקות"
    case HoursAgo(h) => "לפני " + IntToString(h) + " שעות"
    case DaysAgo(d) => "לפני " + IntToString(d) + " ימים"
    case AbsoluteDate(_) => formatted
  }

  /** The coarseness of a label: just now, minutes, hours, days, a date. */
  function Rank(r: RelativeTime): int {
    match r
    case Dash => 0
    case JustNow => 1
    case MinutesAgo(_) => 2
    case HoursAgo(_) => 3
    case DaysAgo(_) => 4
    case AbsoluteDate(_) => 5
  }

  /** More time elapsed never moves a date to a finer bucket. */
  lemma RelativeTimeMonotone(date: string, d1: int, d2: int)
    requires date != "" && d1 <= d2
    ensures Rank(FormatRelativeTime(Some(date), d1)) <= Rank(FormatRelativeTime(Some(date), d2))
  {
  }

  /** A formatted value, or the `-` shown in its place. */
  datatype Shown<T> = Missing | Formatted(value: T)

  /** `formatDate` / `formatDateTime`: `-` for a missing or empty date (a falsy check). */
  function FormatDate(date: Option<string>): (r: Shown<string>)
    ensures r.Missing? <==> date.None? || date == Some("")
    ensures r.Formatted? ==> r.value == date.value
  {
    if date.None? || date.value == "" then Missing else Formatted(date.value)
  }

  /** `formatCurrency` / `formatNumber` / `formatPercent`: `-` only for `null` (an identity check). */
  function FormatNumber(value: Option<int>): (r: Shown<int>)
    ensures r.Missing? <==> value.None?
    ensures r.Formatted? ==> r.value == value.value
  {
    if value.None? then Missing else Formatted(value.value)
  }

  /** Zero is formatted, while an empty date string shows `-`: the two checks differ. */
  lemma ZeroIsShownEmptyDateIsNot()
    ensures FormatNumber(Some(0)) == Formatted(0)
    ensures FormatDate(Some("")) == Missing
  {
  }
}
