/**
 * What the management forms share: the list of selectable years, and the
 * request a form sends when it is saved (PUT to the item's own path while
 * editing, POST to the collection otherwise).
 */
module Forms {
  import opened Wrappers
  import opened Json
  import Http

  /** `Array.from({ length: count }, (_, i) => current - i)`. */
  function YearOptions(current: int, count: nat): (years: seq<int>)
    ensures |years| == count
    ensures forall i :: 0 <= i < count ==> years[i] == current - i
  {
    seq(count, i => current - i)
  }

  /** The years run from the current one downwards, each once, ending `count - 1` years back. */
  lemma {:induction false} YearOptionsRange(current: int, count: nat, y: int)
    ensures y in YearOptions(current, count) <==> current - count < y <= current
  {
    var years := YearOptions(current, count);
    if current - count < y <= current {
      assert years[current - y] == y;
    }
  }

  lemma YearOptionsDescending(current: int, count: nat, i: int, j: int)
    requires 0 <= i < j < count
    ensures YearOptions(current, count)[i] > YearOptions(current, count)[j]
  {
  }

  /** A form's save: the method, the path and the JSON body. */
  datatype SaveRequest = SaveRequest(verb: Http.HttpMethod, url: string, body: Record)

  /** The request a form sends: PUT to `base/<id>` while editing the item `id`, POST to `base` otherwise. */
  function SaveTo(base: string, editing: Option<string>, body: Record): (r: SaveRequest)
    ensures r.body == body
    ensures editing.None? ==> r.verb == Http.POST && r.url == base
    ensures editing.Some? ==> r.verb == Http.PUT && r.url == base + "/" + editing.value
  {
    match editing
    case None => SaveRequest(Http.POST, base, body)
    case Some(id) => SaveRequest(Http.PUT, base + "/" + id, body)
  }

  /** Distinct items are saved to distinct paths, and never to the collection's own. */
  lemma SaveToDistinct(base: string, a: string, b: string, body: Record)
    requires a != b
    ensures SaveTo(base, Some(a), body).url != SaveTo(base, Some(b), body).url
    ensures SaveTo(base, Some(a), body).url != SaveTo(base, None, body).url
  {
    var ua := base + "/" + a;
    var ub := base + "/" + b;
    assert ua[|base| + 1..] == a && ub[|base| + 1..] == b;
    assert |ua| > |base|;
  }
}
