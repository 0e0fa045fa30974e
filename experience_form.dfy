/**
 * The experience editor: how an entry's period is shown ("January 2020 -
 * Present"), the year choices, and the form that creates or edits an entry.
 */
module ExperienceForm {
  import opened Wrappers
  import opened Json
  import Text
  import Forms
  import Http
  import Database

  const Months: seq<string> :=
    ["January", "February", "March", "April", "May", "June",
     "July", "August", "September", "October", "November", "December"]

  /** The number of years the start and end selects offer. */
  const YearCount: nat := 50

  /** An entry as the list holds it; the end is optional. */
  datatype Entry = Entry(id: string, startMonth: int, startYear: int,
                         endMonth: Option<int>, endYear: Option<int>,
                         currentlyWorking: bool, position: string, shortDescription: string)

  /** `months[m - 1]` inside a template: a month name, or "undefined" outside 1..12. */
  function MonthName(m: int): (name: string)
    ensures 1 <= m <= 12 ==> name == Months[m - 1]
    ensures !(1 <= m <= 12) ==> name == "undefined"
  {
    if 1 <= m <= 12 then Months[m - 1] else "undefined"
  }

  /** A number inside a template, "undefined" when absent. */
  function NumberText(n: Option<int>): string {
    if n.Some? then Text.IntText(n.value) else "undefined"
  }

  /** `experience.endMonth || 1`: an absent or zero month counts as January. */
  function EndMonthOrJanuary(m: Option<int>): (r: int)
    ensures m.Some? && m.value != 0 ==> r == m.value
    ensures !(m.Some? && m.value != 0) ==> r == 1
  {
    if m.Some? && m.value != 0 then m.value else 1
  }

  function StartText(e: Entry): string {
    MonthName(e.startMonth) + " " + Text.IntText(e.startYear)
  }

  function EndText(e: Entry): string {
    MonthName(EndMonthOrJanuary(e.endMonth)) + " " + NumberText(e.endYear)
  }

  /** `formatDateRange`. */
  function FormatDateRange(e: Entry): string {
    if e.currentlyWorking then StartText(e) + " - Present" else StartText(e) + " - " + EndText(e)
  }

  /** A number field of a stored record, when it holds one. */
  function NumberField(rec: Record, key: string): (r: Option<int>)
    ensures r.Some? <==> key in rec && rec[key].Num?
    ensures r.Some? ==> r.value == rec[key].n
  {
    if key in rec && rec[key].Num? then Some(rec[key].n) else None
  }

  /**
   * The entry a stored experience record reads as: the start, the flag and the
   * two texts must be there with their types; the end fields are optional.
   */
  function EntryOf(id: string, rec: Record): (r: Option<Entry>)
    ensures r.Some? <==>
              && NumberField(rec, "startMonth").Some? && NumberField(rec, "startYear").Some?
              && "currentlyWorking" in rec && rec["currentlyWorking"].Bool?
              && "position" in rec && rec["position"].Str?
              && "shortDescription" in rec && rec["shortDescription"].Str?
    ensures r.Some? ==>
              && r.value.id == id
              && r.value.startMonth == rec["startMonth"].n && r.value.startYear == rec["startYear"].n
              && r.value.endMonth == NumberField(rec, "endMonth") && r.value.endYear == NumberField(rec, "endYear")
              && r.value.currentlyWorking == rec["currentlyWorking"].b
              && r.value.position == rec["position"].s && r.value.shortDescription == rec["shortDescription"].s
  {
    var startMonth := NumberField(rec, "startMonth");
    var startYear := NumberField(rec, "startYear");
    if startMonth.Some? && startYear.Some?
       && "currentlyWorking" in rec && rec["currentlyWorking"].Bool?
       && "position" in rec && rec["position"].Str?
       && "shortDescription" in rec && rec["shortDescription"].Str?
    then Some(Entry(id, startMonth.value, startYear.value,
                    NumberField(rec, "endMonth"), NumberField(rec, "endYear"),
                    rec["currentlyWorking"].b, rec["position"].s, rec["shortDescription"].s))
    else None
  }

  // ---------------------------------------------------------------- properties

  /** The table holds twelve different names, so a month in 1..12 is told by its name. */
  lemma MonthNamesDistinct(a: int, b: int)
    requires 1 <= a <= 12 && 1 <= b <= 12 && a != b
    ensures MonthName(a) != MonthName(b)
  {
  }

  /** A month outside 1..12 shows as no month name. */
  lemma OutOfRangeMonth(m: int)
    requires !(1 <= m <= 12)
    ensures MonthName(m) !in Months
  {
  }

  /** A current position shows as "<start> - Present", whatever its end fields hold. */
  lemma PresentIgnoresEnd(e: Entry, endMonth: Option<int>, endYear: Option<int>)
    requires e.currentlyWorking
    ensures FormatDateRange(e) == StartText(e) + " - Present"
    ensures FormatDateRange(e.(endMonth := endMonth, endYear := endYear)) == FormatDateRange(e)
  {
  }

  /** A blank or zero end month shows as January. */
  lemma MissingEndMonthIsJanuary(e: Entry)
    requires !e.currentlyWorking && (e.endMonth.None? || e.endMonth == Some(0))
    ensures FormatDateRange(e) == StartText(e) + " - January " + NumberText(e.endYear)
  {
    assert MonthName(1) == "January";
  }

  /** The text says "Present" exactly for a current position. */
  lemma {:induction false} PresentExactlyWhenCurrent(e: Entry)
    ensures FormatDateRange(e) == StartText(e) + " - Present" <==> e.currentlyWorking
  {
    if !e.currentlyWorking {
      var prefix := StartText(e) + " - ";
      var month := MonthName(EndMonthOrJanuary(e.endMonth));
      var tail := EndText(e);
      assert FormatDateRange(e) == prefix + tail;
      assert tail[|month|] == ' ';
      assert tail != "Present";
      AppendCancel(prefix, tail, "Present");
    }
  }

  /** A common prefix can be cancelled. */
  lemma AppendCancel(p: string, a: string, b: string)
    ensures p + a == p + b ==> a == b
  {
    assert (p + a)[|p|..] == a;
    assert (p + b)[|p|..] == b;
  }

  /** Whatever the end, the text opens with the start and " - ". */
  lemma StartsWithStart(e: Entry)
    ensures var t := FormatDateRange(e); var p := StartText(e) + " - ";
            |p| <= |t| && t[..|p|] == p
  {
    var p := StartText(e) + " - ";
    var rest := if e.currentlyWorking then "Present" else EndText(e);
    assert FormatDateRange(e) == p + rest;
  }

  // ---------------------------------------------------------------- the form

  class Editor {
    /** `new Date().getFullYear()` when the page loaded. */
    const currentYear: int
    var startMonth: int
    var startYear: int
    var endMonth: int
    var endYear: int
    var currentlyWorking: bool
    var position: string
    var shortDescription: string
    /** The `_id` of the entry being edited, if any. */
    var editing: Option<string>
    var dialogOpen: bool

    /** The form as it starts, and as `resetForm` leaves it. */
    predicate IsBlank()
      reads this
    {
      && startMonth == 1 && startYear == currentYear && endMonth == 1 && endYear == currentYear
      && !currentlyWorking && position == "" && shortDescription == "" && editing.None?
    }

    constructor (year: int)
      ensures currentYear == year && IsBlank() && !dialogOpen
    {
      currentYear := year;
      startMonth := 1;
      startYear := year;
      endMonth := 1;
      endYear := year;
      currentlyWorking := false;
      position := "";
      shortDescription := "";
      editing := None;
      dialogOpen := false;
    }

    /** The choices of the year selects: 50 years, from this one downwards. */
    function Years(): (years: seq<int>)
      reads this
      ensures |years| == YearCount && years[0] == currentYear
      ensures years[YearCount - 1] == currentYear - 49
    {
      Forms.YearOptions(currentYear, YearCount)
    }

    /** `JSON.stringify(formData)`. */
    function Body(): (body: Record)
      reads this
      ensures body.Keys == {"startMonth", "startYear", "endMonth", "endYear", "currentlyWorking", "position", "shortDescription"}
      ensures body["startMonth"] == Num(startMonth) && body["startYear"] == Num(startYear)
      ensures body["endMonth"] == Num(endMonth) && body["endYear"] == Num(endYear)
      ensures body["currentlyWorking"] == Bool(currentlyWorking)
      ensures body["position"] == Str(position) && body["shortDescription"] == Str(shortDescription)
    {
      map["startMonth" := Num(startMonth), "startYear" := Num(startYear),
          "endMonth" := Num(endMonth), "endYear" := Num(endYear),
          "currentlyWorking" := Bool(currentlyWorking),
          "position" := Str(position), "shortDescription" := Str(shortDescription)]
    }

    /** `resetForm`. */
    method ResetForm()
      modifies this`startMonth, this`startYear, this`endMonth, this`endYear, this`currentlyWorking,
               this`position, this`shortDescription, this`editing
      ensures IsBlank()
    {
      startMonth := 1;
      startYear := currentYear;
      endMonth := 1;
      endYear := currentYear;
      currentlyWorking := false;
      position := "";
      shortDescription := "";
      editing := None;
    }

    /** `handleEdit`: load an entry into the form, an absent end as January of this year, and open the dialog. */
    method HandleEdit(e: Entry)
      modifies this
      ensures editing == Some(e.id) && dialogOpen
      ensures startMonth == e.startMonth && startYear == e.startYear
      ensures endMonth == EndMonthOrJanuary(e.endMonth)
      ensures endYear == (if e.endYear.Some? && e.endYear.value != 0 then e.endYear.value else currentYear)
      ensures currentlyWorking == e.currentlyWorking
      ensures position == e.position && shortDescription == e.shortDescription
    {
      editing := Some(e.id);
      startMonth := e.startMonth;
      startYear := e.startYear;
      endMonth := EndMonthOrJanuary(e.endMonth);
      endYear := if e.endYear.Some? && e.endYear.value != 0 then e.endYear.value else currentYear;
      currentlyWorking := e.currentlyWorking;
      position := e.position;
      shortDescription := e.shortDescription;
      dialogOpen := true;
    }

    /**
     * The first part of `handleSubmit`: nothing is sent while the position or the
     * description is empty; otherwise the form goes to the entry's own path while
     * editing and to the collection when creating.
     */
    method Submit() returns (r: Option<Forms.SaveRequest>)
      ensures r.None? <==> position == "" || shortDescription == ""
      ensures r.Some? && editing.None? ==> r.value.verb == Http.POST && r.value.url == "/api/experience"
      ensures r.Some? && editing.Some? ==> r.value.verb == Http.PUT && r.value.url == "/api/experience/" + editing.value
      ensures r.Some? ==> r.value.body == Body()
    {
      if position == "" || shortDescription == "" {
        return None;
      }
      r := Some(Forms.SaveTo("/api/experience", editing, Body()));
    }

    /** The rest of `handleSubmit`: a saved form is closed and reset; a failed one stays as it is. */
    method Saved(ok: bool)
      modifies this
      ensures ok ==> IsBlank() && !dialogOpen
      ensures !ok ==> unchanged(this)
    {
      if ok {
        dialogOpen := false;
        ResetForm();
      }
    }
  }

  /** `String(n)` never reads "undefined": it opens with a digit or a minus sign. */
  lemma IntTextNotUndefined(n: int)
    ensures Text.IntText(n) != "undefined"
  {
    var t := Text.IntText(n);
    if n >= 0 {
      assert Text.DigitValue(t[0]) < 10;
    } else {
      assert t[0] == '-';
    }
    assert "undefined"[0] == 'u';
  }

  /**
   * Whatever the record held before, once the update merges the form's body
   * into it the record reads back as the form: every field as the form had it,
   * both end fields present.
   */
  lemma BodyReadsBack(ed: Editor, id: string, stored: Record, now: int)
    ensures var r := EntryOf(id, Database.Merged(stored, ed.Body(), now));
            r == Some(Entry(id, ed.startMonth, ed.startYear, Some(ed.endMonth), Some(ed.endYear),
                            ed.currentlyWorking, ed.position, ed.shortDescription))
  {
  }

  /**
   * Loading an entry into the form and saving it again. When a request is sent,
   * the update merges its body into the stored record `stored` at time `now`,
   * and `shown` is what that record then reads as: the same period whenever the
   * entry is current or has an end year; an entry without an end year now ends
   * in the current year, where before it read "undefined"; a missing end month
   * was already shown as January. When nothing is sent, nothing is stored.
   */
  method EditAndSave(ed: Editor, e: Entry, stored: Record, now: int)
    returns (r: Option<Forms.SaveRequest>, shown: Option<Entry>)
    modifies ed
    ensures r.Some? <==> e.position != "" && e.shortDescription != ""
    ensures r.Some? ==> r.value == Forms.SaveRequest(Http.PUT, "/api/experience/" + e.id, ed.Body())
    ensures r.None? ==> shown.None?
    ensures r.Some? ==> shown == EntryOf(e.id, Database.Merged(stored, r.value.body, now)) && shown.Some?
    ensures r.Some? ==>
              && shown.value.position == e.position && shown.value.shortDescription == e.shortDescription
              && shown.value.currentlyWorking == e.currentlyWorking
    ensures r.Some? && (e.currentlyWorking || (e.endYear.Some? && e.endYear.value != 0)) ==>
              FormatDateRange(shown.value) == FormatDateRange(e)
    ensures r.Some? && !e.currentlyWorking && !(e.endYear.Some? && e.endYear.value != 0) ==>
              FormatDateRange(shown.value) == FormatDateRange(e.(endYear := Some(ed.currentYear)))
    ensures r.Some? && !e.currentlyWorking && e.endYear.None? ==>
              FormatDateRange(shown.value) != FormatDateRange(e)
  {
    ed.HandleEdit(e);
    r := ed.Submit();
    if r.None? {
      return r, None;
    }
    BodyReadsBack(ed, e.id, stored, now);
    shown := EntryOf(e.id, Database.Merged(stored, r.value.body, now));
    var entry := shown.value;
    if !e.currentlyWorking && e.endYear.None? {
      var month := MonthName(EndMonthOrJanuary(e.endMonth)) + " ";
      var year := Text.IntText(ed.currentYear);
      assert EndText(entry) == month + year;
      assert EndText(e) == month + "undefined";
      IntTextNotUndefined(ed.currentYear);
      AppendCancel(month, year, "undefined");
      AppendCancel(StartText(e) + " - ", EndText(entry), EndText(e));
    }
  }
}
