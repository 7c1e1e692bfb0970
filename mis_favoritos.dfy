/** The candidate's favourites screen (src/app/components/MisFavoritos.js):
    the pager over pages of 20, the salary line of a favourite, the removal
    of a favourite from the list, and how a page response becomes the list. */
module MisFavoritos {
  import opened Js

  /** The page size the screen requests. */
  const Limit: int := 20

  /** The previous button is enabled exactly from the second page on. */
  predicate CanPrev(page: int) {
    page > 1
  }

  /** `a < b` for an integer `a` and any value `b`: `b` is converted with
      `Number`, and a comparison with NaN is false. */
  predicate LessThan(a: int, b: JsValue) {
    match ToNumber(b)
    case Num(n) => a < n
    case _ => false
  }

  /** The next button is enabled while the pages up to this one hold fewer
      favourites than the total. */
  predicate CanNext(page: int, total: JsValue) {
    LessThan(page * Limit, total)
  }

  /** `t - 1` for any value `t`. */
  function Decrement(t: JsValue): (r: JsValue)
    ensures ToNumber(t).Num? ==> r == Num(ToNumber(t).n - 1)
    ensures ToNumber(t).NaN? ==> r == NaN
  {
    Minus(ToNumber(t), 1)
  }

  /** `x - d` for a number `x` (an integer or NaN). */
  function Minus(x: JsValue, d: int): (r: JsValue)
    ensures x.Num? ==> r == Num(x.n - d)
    ensures !x.Num? ==> r == NaN
  {
    if x.Num? then Num(x.n - d) else NaN
  }

  /** With a numeric total, the next button is enabled exactly when some
      favourite lies beyond the current page. */
  lemma CanNextWithNumericTotal(page: int, total: int)
    ensures CanNext(page, Num(total)) <==> page * 20 < total
  {
  }

  // ---------------------------------------------------------------------------
  // The salary line

  /** `getSalary(job)`: the range text when both bounds are truthy, else
      `null` (None). `fmt` stands for `toLocaleString`. */
  function GetSalary(job: JsValue, fmt: JsValue -> string): (r: Option<string>)
    ensures r.Some? <==> Truthy(Get(job, "min_salary")) && Truthy(Get(job, "max_salary"))
    ensures r.Some? ==> r.value == "$" + fmt(Get(job, "min_salary")) + " - $" + fmt(Get(job, "max_salary"))
  {
    var lo := Get(job, "min_salary");
    var hi := Get(job, "max_salary");
    if Truthy(lo) && Truthy(hi) then Some("$" + fmt(lo) + " - $" + fmt(hi)) else None
  }

  /** A zero bound counts as missing, so a range starting at 0 has no line. */
  lemma ZeroMinimumHasNoSalary(job: JsValue, fmt: JsValue -> string)
    requires Get(job, "min_salary") == Num(0)
    ensures GetSalary(job, fmt).None?
  {
  }

  // ---------------------------------------------------------------------------
  // Removal

  /** `f.job.job_id` */
  function JobIdOf(favorite: JsValue): JsValue {
    Get(Get(favorite, "job"), "job_id")
  }

  /** `favorites.filter(f => f.job.job_id !== jobId)` */
  function RemoveById(favorites: seq<JsValue>, jobId: JsValue): (r: seq<JsValue>)
    ensures |r| <= |favorites|
    ensures forall x :: x in r ==> x in favorites && !StrictEq(JobIdOf(x), jobId)
    ensures forall x :: x in favorites && !StrictEq(JobIdOf(x), jobId) ==> x in r
  {
    if favorites == [] then []
    else
      var rest := RemoveById(favorites[1..], jobId);
      if StrictEq(JobIdOf(favorites[0]), jobId) then rest else [favorites[0]] + rest
  }

  /** Removal keeps the order of what it keeps: it distributes over concatenation. */
  lemma {:induction false} RemoveByIdOfConcat(a: seq<JsValue>, b: seq<JsValue>, jobId: JsValue)
    ensures RemoveById(a + b, jobId) == RemoveById(a, jobId) + RemoveById(b, jobId)
  {
    if a == [] {
      assert a + b == b;
    } else {
      assert (a + b)[1..] == a[1..] + b;
      RemoveByIdOfConcat(a[1..], b, jobId);
    }
  }

  /** The number of favourites whose job id is `jobId`. */
  function CountWithId(favorites: seq<JsValue>, jobId: JsValue): (n: nat)
    ensures n <= |favorites|
  {
    if favorites == [] then 0
    else (if StrictEq(JobIdOf(favorites[0]), jobId) then 1 else 0) + CountWithId(favorites[1..], jobId)
  }

  /** Removal drops exactly the favourites with the id. */
  lemma {:induction false} RemoveByIdLength(favorites: seq<JsValue>, jobId: JsValue)
    ensures |RemoveById(favorites, jobId)| == |favorites| - CountWithId(favorites, jobId)
  {
    if favorites != [] {
      RemoveByIdLength(favorites[1..], jobId);
    }
  }

  /** Removing an id nobody has leaves the list as it was. */
  lemma {:induction false} RemoveAbsentId(favorites: seq<JsValue>, jobId: JsValue)
    requires CountWithId(favorites, jobId) == 0
    ensures RemoveById(favorites, jobId) == favorites
  {
    if favorites != [] {
      RemoveAbsentId(favorites[1..], jobId);
      assert favorites == [favorites[0]] + favorites[1..];
    }
  }

  // ---------------------------------------------------------------------------
  // Page responses

  /** `{...item, company}`: an object's own fields with `company` set. */
  function WithCompany(item: JsValue, company: JsValue): (r: JsValue)
    ensures r.Obj? && "company" in r.fields && r.fields["company"] == company
    ensures item.Obj? ==> forall k :: k in item.fields && k != "company" ==> k in r.fields && r.fields[k] == item.fields[k]
    ensures r.fields.Keys == (if item.Obj? then item.fields.Keys else {}) + {"company"}
  {
    Obj((if item.Obj? then item.fields else map[])["company" := company])
  }

  /** One favourite with its company resolved; None when reading `item.job`
      throws (a `null` or `undefined` item). `lookup` stands for the company
      request (None when it fails). */
  function Enrich(item: JsValue, lookup: JsValue -> Option<JsValue>): (r: Option<JsValue>)
    ensures r.None? <==> item.Null? || item.Undefined?
    ensures r.Some? ==> var id := Get(Get(item, "job"), "company_id");
      r.value == WithCompany(item,
        if !Truthy(id) then Null
        else match lookup(id) case Some(c) => c case None => Null)
  {
    if item.Null? || item.Undefined? then None
    else
      var id := Get(Get(item, "job"), "company_id");
      if !Truthy(id) then Some(WithCompany(item, Null))
      else match lookup(id)
        case Some(c) => Some(WithCompany(item, c))
        case None => Some(WithCompany(item, Null))
  }

  /** A favourite with no company id, or whose company cannot be fetched,
      gets `company: null`. */
  lemma CompanyNullWhenUnresolved(item: JsValue, lookup: JsValue -> Option<JsValue>)
    requires item.Obj?
    requires var id := Get(Get(item, "job"), "company_id"); !Truthy(id) || lookup(id).None?
    ensures Enrich(item, lookup).Some? && Get(Enrich(item, lookup).value, "company") == Null
  {
  }

  /** `Promise.all(items.map(...))`: every item enriched, or None when any throws. */
  function EnrichAll(items: seq<JsValue>, lookup: JsValue -> Option<JsValue>): (r: Option<seq<JsValue>>)
    ensures r.Some? <==> forall i :: 0 <= i < |items| ==> Enrich(items[i], lookup).Some?
    ensures r.Some? ==> (|r.value| == |items|
      && forall i :: 0 <= i < |items| ==> r.value[i] == Enrich(items[i], lookup).value)
  {
    if items == [] then Some([])
    else
      match (Enrich(items[0], lookup), EnrichAll(items[1..], lookup))
      case (Some(x), Some(xs)) =>
        var r := [x] + xs;
        assert forall i :: 1 <= i < |items| ==> r[i] == xs[i - 1] && items[i] == items[1..][i - 1];
        Some(r)
      case (_, rest) =>
        assert rest.None? ==> exists i :: 1 <= i < |items| && Enrich(items[i], lookup).None? by {
          if rest.None? {
            var j :| 0 <= j < |items[1..]| && Enrich(items[1..][j], lookup).None?;
            assert items[j + 1] == items[1..][j];
          }
        }
        None
  }

  /** `res.data?.items || []` and `res.data?.total || 0` */
  function ItemsOf(data: JsValue): JsValue {
    OrChain([Get(data, "items"), Arr([])])
  }

  function TotalOf(data: JsValue): JsValue {
    OrChain([Get(data, "total"), Num(0)])
  }

  /** A response without items or total reads as an empty page of a zero total. */
  lemma ResponseDefaults(data: JsValue)
    ensures !Truthy(Get(data, "items")) ==> ItemsOf(data) == Arr([])
    ensures !Truthy(Get(data, "total")) ==> TotalOf(data) == Num(0)
    ensures Truthy(Get(data, "total")) ==> TotalOf(data) == Get(data, "total")
  {
  }

  // ---------------------------------------------------------------------------
  // The screen

  /** The screen's state. */
  class FavoritesScreen {
    var favoritos: seq<JsValue>
    var total: JsValue
    var removingId: JsValue
    var page: int
    var loading: bool

    /** Pages are numbered from 1. */
    predicate Valid()
      reads this
    {
      page >= 1
    }

    constructor ()
      ensures Valid()
      ensures favoritos == [] && total == Num(0) && removingId == Null && page == 1 && loading
    {
      favoritos := [];
      total := Num(0);
      removingId := Null;
      page := 1;
      loading := true;
    }

    /** The previous button: one page back, when enabled. */
    method PrevPage()
      requires Valid()
      modifies this
      ensures Valid()
      ensures page == if CanPrev(old(page)) then old(page) - 1 else old(page)
      ensures favoritos == old(favoritos) && total == old(total) && removingId == old(removingId)
      ensures loading == old(loading)
    {
      if CanPrev(page) {
        page := page - 1;
      }
    }

    /** The next button: one page forward, when enabled. */
    method NextPage()
      requires Valid()
      modifies this
      ensures Valid()
      ensures page == if CanNext(old(page), old(total)) then old(page) + 1 else old(page)
      ensures favoritos == old(favoritos) && total == old(total) && removingId == old(removingId)
      ensures loading == old(loading)
    {
      if CanNext(page, total) {
        page := page + 1;
      }
    }

    /** `handleRemove(jobId)`; `deleteOk` is the outcome of the DELETE request. */
    method HandleRemove(jobId: JsValue, deleteOk: bool)
      modifies this
      ensures favoritos == if deleteOk then RemoveById(old(favoritos), jobId) else old(favoritos)
      ensures total == if deleteOk then Decrement(old(total)) else old(total)
      ensures removingId == Null
      ensures page == old(page) && loading == old(loading)
    {
      removingId := jobId;
      if deleteOk {
        favoritos := RemoveById(favoritos, jobId);
        total := Decrement(total);
      }
      removingId := Null;
    }

    /** A page response arrives: `data` is its body and `lookup` the company
        request. A truthy non-array `items`, or an item that cannot be read,
        makes the update throw, and the list and total stay as they were. */
    method ApplyResponse(data: JsValue, lookup: JsValue -> Option<JsValue>)
      modifies this
      ensures var items := ItemsOf(data);
        if items.Arr? && EnrichAll(items.items, lookup).Some?
        then favoritos == EnrichAll(items.items, lookup).value && total == TotalOf(data)
        else favoritos == old(favoritos) && total == old(total)
      ensures !loading
      ensures page == old(page) && removingId == old(removingId)
    {
      var items := ItemsOf(data);
      if items.Arr? {
        var enriched := EnrichAll(items.items, lookup);
        if enriched.Some? {
          favoritos := enriched.value;
          total := TotalOf(data);
        }
      }
      loading := false;
    }
  }

  /** With a numeric total that counts the listed favourites, removing one
      listed favourite keeps the list and the total in step. */
  lemma RemoveOneKeepsCount(favorites: seq<JsValue>, jobId: JsValue, total: int)
    requires CountWithId(favorites, jobId) == 1
    ensures Decrement(Num(total)) == Num(total - 1)
    ensures (total - 1) - |RemoveById(favorites, jobId)| == total - |favorites|
  {
    RemoveByIdLength(favorites, jobId);
  }
}
