/**
 * The research-grant editor: the form's four fields, how the amount typed is
 * read, the validation before a save, and the year choices.
 */
module GrantsForm {
  import opened Wrappers
  import opened Json
  import Text
  import Forms
  import Http

  /** The number of years the year select offers. */
  const YearCount: nat := 30

  /** A grant as the list holds it: the form edits the first four fields only. */
  datatype Grant = Grant(id: string, fundReceived: int, title: string, year: int, grantAgency: string,
                         currency: Option<string>, startYear: Option<int>, endYear: Option<int>)

  /**
   * `Number.parseInt(text) || 0`, what the amount field stores: the leading
   * integer of the text, and 0 when there is none (`NaN` is falsy).
   */
  function FundInput(text: string): (n: int)
    ensures Text.ParseInt(text).Some? ==> n == Text.ParseInt(text).value
    ensures Text.ParseInt(text).None? ==> n == 0
  {
    match Text.ParseInt(text)
    case None => 0
    case Some(v) => v
  }

  /** Any whole amount typed in is stored as that amount. */
  lemma FundInputText(n: int)
    ensures FundInput(Text.IntText(n)) == n
  {
    Text.ParseIntText(n);
  }

  /** A cleared field, or one with nothing but blanks, stores 0, and such a form is refused. */
  lemma BlankFundIsZero(text: string)
    requires forall i :: 0 <= i < |text| ==> Text.IsSpace(text[i])
    ensures FundInput(text) == 0
    ensures !Acceptable("t", "a", FundInput(text))
  {
    Text.ParseIntBlank(text);
  }

  /** The guard of `handleSubmit`: a title, an agency and a positive amount. */
  predicate Acceptable(title: string, grantAgency: string, fundReceived: int) {
    title != "" && grantAgency != "" && fundReceived > 0
  }

  class Editor {
    var fundReceived: int
    var title: string
    var year: int
    var grantAgency: string
    /** The `_id` of the grant being edited, if any. */
    var editing: Option<string>
    var dialogOpen: bool

    /** The form as it starts, and as `resetForm` leaves it, in the year `thisYear`. */
    predicate IsBlank(thisYear: int)
      reads this
    {
      fundReceived == 0 && title == "" && year == thisYear && grantAgency == "" && editing.None?
    }

    constructor (thisYear: int)
      ensures IsBlank(thisYear) && !dialogOpen
    {
      fundReceived := 0;
      title := "";
      year := thisYear;
      grantAgency := "";
      editing := None;
      dialogOpen := false;
    }

    /** `JSON.stringify(formData)`: exactly the four fields. */
    function Body(): (body: Record)
      reads this
      ensures body.Keys == {"fundReceived", "title", "year", "grantAgency"}
      ensures body["fundReceived"] == Num(fundReceived) && body["title"] == Str(title)
      ensures body["year"] == Num(year) && body["grantAgency"] == Str(grantAgency)
    {
      map["fundReceived" := Num(fundReceived), "title" := Str(title),
          "year" := Num(year), "grantAgency" := Str(grantAgency)]
    }

    /** The amount field's `onChange`. */
    method OnFundInput(text: string)
      modifies this`fundReceived
      ensures fundReceived == FundInput(text)
    {
      fundReceived := FundInput(text);
    }

    /** `resetForm`, in the year the clock reads when it runs. */
    method ResetForm(thisYear: int)
      modifies this`fundReceived, this`title, this`year, this`grantAgency, this`editing
      ensures IsBlank(thisYear)
    {
      fundReceived := 0;
      title := "";
      year := thisYear;
      grantAgency := "";
      editing := None;
    }

    /** `handleEdit`: the four fields of the grant, the grant as the target, the dialog open. */
    method HandleEdit(g: Grant)
      modifies this
      ensures fundReceived == g.fundReceived && title == g.title && year == g.year && grantAgency == g.grantAgency
      ensures editing == Some(g.id) && dialogOpen
    {
      editing := Some(g.id);
      fundReceived := g.fundReceived;
      title := g.title;
      year := g.year;
      grantAgency := g.grantAgency;
      dialogOpen := true;
    }

    /** The first part of `handleSubmit`: a refused form sends nothing; an accepted one is saved. */
    method Submit() returns (r: Option<Forms.SaveRequest>)
      ensures r.Some? <==> Acceptable(title, grantAgency, fundReceived)
      ensures r.Some? && editing.None? ==> r.value.verb == Http.POST && r.value.url == "/api/research-grants"
      ensures r.Some? && editing.Some? ==>
                r.value.verb == Http.PUT && r.value.url == "/api/research-grants/" + editing.value
      ensures r.Some? ==> r.value.body == Body()
    {
      if title == "" || grantAgency == "" || fundReceived <= 0 {
        return None;
      }
      r := Some(Forms.SaveTo("/api/research-grants", editing, Body()));
    }

    /** The rest of `handleSubmit`: a saved form is closed and reset. */
    method Saved(ok: bool, thisYear: int)
      modifies this
      ensures ok ==> IsBlank(thisYear) && !dialogOpen
      ensures !ok ==> unchanged(this)
    {
      if ok {
        dialogOpen := false;
        ResetForm(thisYear);
      }
    }
  }

  /** The year choices: 30 years, from this one downwards. */
  function Years(thisYear: int): (years: seq<int>)
    ensures |years| == YearCount && years[0] == thisYear && years[YearCount - 1] == thisYear - 29
  {
    Forms.YearOptions(thisYear, YearCount)
  }

  /** The body the form holds after `handleEdit(g)`. */
  function EditedBody(g: Grant): (body: Record)
    ensures body.Keys == {"fundReceived", "title", "year", "grantAgency"}
    ensures body["fundReceived"] == Num(g.fundReceived) && body["title"] == Str(g.title)
    ensures body["year"] == Num(g.year) && body["grantAgency"] == Str(g.grantAgency)
  {
    map["fundReceived" := Num(g.fundReceived), "title" := Str(g.title),
        "year" := Num(g.year), "grantAgency" := Str(g.grantAgency)]
  }

  /** Loading a grant and saving it again sends back just its four fields. */
  method EditThenSubmit(e: Editor, g: Grant) returns (r: Option<Forms.SaveRequest>)
    modifies e
    ensures r.Some? <==> Acceptable(g.title, g.grantAgency, g.fundReceived)
    ensures r.Some? ==> r.value == Forms.SaveRequest(Http.PUT, "/api/research-grants/" + g.id, EditedBody(g))
  {
    e.HandleEdit(g);
    r := e.Submit();
  }
}
