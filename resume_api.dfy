/**
 * The resume API server (app.py): Flask handlers that each read
 * `data/resume.json`, apply one request to the loaded document in memory
 * and write the document back. A handler is a method of `ResumeStore`
 * mapping the stored file and one request to a status code and a new
 * stored file; the file changes only when the save succeeds.
 */
module ResumeApi {
  import opened Wrappers
  import opened Json

  // The HTTP status codes the handlers answer with.
  const OK := 200
  const Created := 201
  const BadRequest := 400
  const NotFound := 404
  /** A failed save, or an exception the handler does not catch (Flask answers 500). */
  const ServerError := 500

  /** The four id-keyed lists of the document. */
  datatype Section = Skills | Education | Experience | Achievements

  /** The two verbs that change the personal record. */
  datatype Change = Put | Patch

  /**
   * The top-level object of the data file. A list-valued key that is absent
   * reads as an empty list (`data.get(key, [])`); `others` holds every other
   * top-level key, which the handlers keep as they are.
   */
  datatype Document = Document(
    personal: Option<Value>,
    skills: seq<Dict>,
    education: seq<Dict>,
    experience: seq<Dict>,
    achievements: seq<Dict>,
    interests: seq<Value>,
    others: Dict)
  {
    /** `'error' in data`: every handler that changes data refuses such a document. */
    predicate Failed() {
      "error" in others
    }

    /** `data.get(key, [])` for the key of `sec`. */
    function List(sec: Section): seq<Dict> {
      match sec
      case Skills => skills
      case Education => education
      case Experience => experience
      case Achievements => achievements
    }

    /** `data[key] = items` for the key of `sec`; nothing else changes. */
    function WithList(sec: Section, items: seq<Dict>): (d: Document)
      ensures d.List(sec) == items
      ensures forall t :: t != sec ==> d.List(t) == List(t)
      ensures d.personal == personal && d.interests == interests && d.others == others
    {
      match sec
      case Skills => this.(skills := items)
      case Education => this.(education := items)
      case Experience => this.(experience := items)
      case Achievements => this.(achievements := items)
    }
  }

  /** What the data file holds: nothing, text that is not JSON, or a document. */
  datatype FileState = Missing | Corrupt | Stored(doc: Document)

  /** The dict `load_data` returns when it cannot read the file: a lone "error" key. */
  function ErrorDocument(message: string): Document {
    Document(None, [], [], [], [], [], map["error" := Str(message)])
  }

  /**
   * `load_data()`: the stored document, or an error dict. A handler sees a
   * failed load exactly when the file is missing or corrupt, or the stored
   * document itself has a top-level "error" key.
   */
  function LoadData(f: FileState): (d: Document)
    ensures d.Failed() <==> !f.Stored? || f.doc.Failed()
    ensures !f.Stored? ==> d.personal.None? && d.interests == [] && forall sec :: d.List(sec) == []
  {
    match f
    case Missing => ErrorDocument("Data file not found")
    case Corrupt => ErrorDocument("Invalid JSON format")
    case Stored(doc) => doc
  }

  // ---------------------------------------------------------------------
  // Ids

  /** `item.get('id', 0)` as a number; `None` when the id is not a number. */
  function IdOrZero(item: Dict): Option<int> {
    if "id" in item then AsNumber(item["id"]) else Some(0)
  }

  /** `item.get('id') == id`, the test of the item lookup (an item without an id never matches). */
  predicate HasId(item: Dict, id: int) {
    "id" in item && AsNumber(item["id"]) == Some(id)
  }

  /** Every id, a missing one counting as 0, is a number, so taking their maximum does not raise. */
  ghost predicate NumericIds(items: seq<Dict>) {
    forall i | 0 <= i < |items| :: IdOrZero(items[i]).Some?
  }

  /** `n == max([s.get('id', 0) for s in items], default=0) + 1`. */
  ghost predicate IsNextId(items: seq<Dict>, n: int) {
    && NumericIds(items)
    && (forall i | 0 <= i < |items| :: IdOrZero(items[i]).value < n)
    && (items == [] ==> n == 1)
    && (items != [] ==> exists i | 0 <= i < |items| :: IdOrZero(items[i]).value == n - 1)
  }

  /** No two items carry the same id, a missing id counting as 0. */
  ghost predicate DistinctIds(items: seq<Dict>) {
    forall i, j | 0 <= i < j < |items| :: IdOrZero(items[i]) != IdOrZero(items[j])
  }

  /**
   * The id a POST gives its new item: one more than the largest existing id,
   * 1 for an empty list; `None` when some id is not a number, where Python's
   * `max` or `+ 1` raises TypeError.
   */
  method NextId(items: seq<Dict>) returns (r: Option<int>)
    ensures r.Some? <==> NumericIds(items)
    ensures r.Some? ==> IsNextId(items, r.value)
  {
    var top := 0;
    for i := 0 to |items|
      invariant forall j | 0 <= j < i :: IdOrZero(items[j]).Some?
      invariant forall j | 0 <= j < i :: IdOrZero(items[j]).value <= top
      invariant i == 0 ==> top == 0
      invariant i > 0 ==> exists j | 0 <= j < i :: IdOrZero(items[j]).value == top
    {
      var id := IdOrZero(items[i]);
      if id.None? {
        return None;
      }
      if i == 0 || id.value > top {
        top := id.value;
      }
    }
    return Some(top + 1);
  }

  /** The maximum-plus-one condition fixes the new id. */
  lemma NextIdIsUnique(items: seq<Dict>, m: int, n: int)
    requires IsNextId(items, m) && IsNextId(items, n)
    ensures m == n
  {
    if items != [] {
      var i :| 0 <= i < |items| && IdOrZero(items[i]).value == m - 1;
      var j :| 0 <= j < |items| && IdOrZero(items[j]).value == n - 1;
      assert IdOrZero(items[j]).value < m && IdOrZero(items[i]).value < n;
    }
  }

  /** The new id equals no existing id, so no existing item matches it in a lookup. */
  lemma NextIdIsFresh(items: seq<Dict>, n: int)
    requires IsNextId(items, n)
    ensures forall i | 0 <= i < |items| :: !HasId(items[i], n) && IdOrZero(items[i]) != Some(n)
  {
    forall i | 0 <= i < |items|
      ensures !HasId(items[i], n) && IdOrZero(items[i]) != Some(n)
    {
      assert IdOrZero(items[i]).value < n;
    }
  }

  /** Appending an item under the new id keeps the ids of a list distinct. */
  lemma PostKeepsIdsDistinct(items: seq<Dict>, body: Dict, n: int)
    requires DistinctIds(items) && IsNextId(items, n)
    ensures DistinctIds(items + [body["id" := Int(n)]])
  {
    var after := items + [body["id" := Int(n)]];
    NextIdIsFresh(items, n);
    forall i, j | 0 <= i < j < |after|
      ensures IdOrZero(after[i]) != IdOrZero(after[j])
    {
      if j == |items| {
        assert IdOrZero(after[j]) == Some(n);
        assert after[i] == items[i];
      } else {
        assert after[i] == items[i] && after[j] == items[j];
      }
    }
  }

  // ---------------------------------------------------------------------
  // Lookup and removal

  /** `k` is the index of the first item whose id equals `id`. */
  ghost predicate IsFirstMatch(items: seq<Dict>, id: int, k: int) {
    && 0 <= k < |items|
    && HasId(items[k], id)
    && forall j | 0 <= j < k :: !HasId(items[j], id)
  }

  /** `next((s for s in items if s.get('id') == id), None)`, as the index of the item found. */
  method FindFirst(items: seq<Dict>, id: int) returns (r: Option<nat>)
    ensures r.Some? ==> IsFirstMatch(items, id, r.value)
    ensures r.None? <==> forall j | 0 <= j < |items| :: !HasId(items[j], id)
  {
    for i := 0 to |items|
      invariant forall j | 0 <= j < i :: !HasId(items[j], id)
    {
      if HasId(items[i], id) {
        return Some(i);
      }
    }
    return None;
  }

  /** An item appended under the new id is the one a later lookup of that id finds. */
  lemma CreatedItemIsFound(items: seq<Dict>, body: Dict, n: int)
    requires IsNextId(items, n)
    ensures IsFirstMatch(items + [body["id" := Int(n)]], n, |items|)
  {
    var after := items + [body["id" := Int(n)]];
    NextIdIsFresh(items, n);
    assert HasId(after[|items|], n);
    forall j | 0 <= j < |items|
      ensures !HasId(after[j], n)
    {
      assert after[j] == items[j];
    }
  }

  /** `items.remove(x)`: drops the first element equal to `x`. */
  function RemoveFirst(items: seq<Dict>, x: Dict): (r: seq<Dict>)
    requires x in items
    ensures |r| == |items| - 1
  {
    if items[0] == x then items[1..] else [items[0]] + RemoveFirst(items[1..], x)
  }

  /**
   * `list.remove(x)` drops the first occurrence of `x` and keeps every
   * other item in order.
   */
  lemma RemoveFirstDropsFirstOccurrence(items: seq<Dict>, x: Dict)
    requires x in items
    ensures exists i | 0 <= i < |items| ::
      items[i] == x && x !in items[..i] && RemoveFirst(items, x) == items[..i] + items[i + 1..]
  {
    var i := FirstOccurrence(items, x);
    RemoveFirstAt(items, x, i);
    assert x !in items[..i] by {
      forall j | 0 <= j < i
        ensures items[..i][j] != x
      {
        assert items[..i][j] == items[j];
      }
    }
  }

  /** The index of the first occurrence of a present element. */
  lemma {:induction false} FirstOccurrence(items: seq<Dict>, x: Dict) returns (i: int)
    requires x in items
    ensures 0 <= i < |items| && items[i] == x
    ensures forall j | 0 <= j < i :: items[j] != x
  {
    if items[0] == x {
      i := 0;
    } else {
      assert x in items[1..] by {
        var k :| 0 <= k < |items| && items[k] == x;
        assert items[1..][k - 1] == x;
      }
      var t := FirstOccurrence(items[1..], x);
      i := t + 1;
      forall j | 1 <= j < i
        ensures items[j] != x
      {
        assert items[j] == items[1..][j - 1];
      }
    }
  }

  /** Removing `x` when `items[i]` is its first occurrence drops exactly index `i`. */
  lemma {:induction false} RemoveFirstAt(items: seq<Dict>, x: Dict, i: int)
    requires 0 <= i < |items| && items[i] == x
    requires forall j | 0 <= j < i :: items[j] != x
    ensures RemoveFirst(items, x) == items[..i] + items[i + 1..]
  {
    if i > 0 {
      var tail := items[1..];
      assert tail[i - 1] == x;
      forall j | 0 <= j < i - 1
        ensures tail[j] != x
      {
        assert tail[j] == items[j + 1];
      }
      RemoveFirstAt(tail, x, i - 1);
      assert [items[0]] + (tail[..i - 1] + tail[i..]) == items[..i] + items[i + 1..];
    }
  }

  /**
   * `list.remove` compares by value, but no item before the first match
   * carries its id, so removing the found item drops exactly that index and
   * keeps the others in order.
   */
  lemma RemoveFoundItem(items: seq<Dict>, id: int, k: int)
    requires IsFirstMatch(items, id, k)
    ensures RemoveFirst(items, items[k]) == items[..k] + items[k + 1..]
  {
    forall j | 0 <= j < k
      ensures items[j] != items[k]
    {
      assert !HasId(items[j], id);
    }
    RemoveFirstAt(items, items[k], k);
  }

  // ---------------------------------------------------------------------
  // Merging and validation

  /** `target.update(changes)`: keys of `changes` take its values, all other keys keep theirs. */
  function Merge(target: Dict, changes: Dict): (r: Dict)
    ensures r.Keys == target.Keys + changes.Keys
    ensures forall k | k in changes :: r[k] == changes[k]
    ensures forall k | k in target && k !in changes :: r[k] == target[k]
  {
    target + changes
  }

  /** Python `a and b` over tests that may raise (`None`). */
  function And(a: Option<bool>, b: Option<bool>): Option<bool> {
    if a == Some(false) then a else if a.None? then None else b
  }

  /** Python `a or b` over tests that may raise (`None`). */
  function Or(a: Option<bool>, b: Option<bool>): Option<bool> {
    if a == Some(true) then a else if a.None? then None else b
  }

  /**
   * The required-field test of a POST body, `None` when a membership test
   * raises: a skill needs name and level, an education item institution and
   * degree, an experience item company or project, an achievement a title.
   */
  function HasRequired(sec: Section, body: Value): (r: Option<bool>)
    ensures r.None? <==> body.Null? || body.Bool? || body.Int?
    ensures body.Object? ==> r.Some? && (r.value <==> match sec
      case Skills => "name" in body.fields && "level" in body.fields
      case Education => "institution" in body.fields && "degree" in body.fields
      case Experience => "company" in body.fields || "project" in body.fields
      case Achievements => "title" in body.fields)
  {
    match sec
    case Skills => And(In("name", body), In("level", body))
    case Education => And(In("institution", body), In("degree", body))
    case Experience => Or(In("company", body), In("project", body))
    case Achievements => In("title", body)
  }

  /** The list has no element twice. */
  ghost predicate NoDuplicates(xs: seq<Value>) {
    forall i, j | 0 <= i < j < |xs| :: xs[i] != xs[j]
  }

  /** Appending a name only when it is absent keeps a duplicate-free list duplicate-free. */
  lemma AppendAbsentKeepsNoDuplicates(xs: seq<Value>, x: Value)
    requires NoDuplicates(xs) && x !in xs
    ensures NoDuplicates(xs + [x])
  {
    var after := xs + [x];
    forall i, j | 0 <= i < j < |after|
      ensures after[i] != after[j]
    {
      assert after[i] == xs[i];
    }
  }

  // ---------------------------------------------------------------------
  // The handlers

  class ResumeStore {
    /** What `data/resume.json` holds between requests. */
    var file: FileState

    constructor (initial: FileState)
      ensures file == initial
    {
      file := initial;
    }

    /** `save_data(data)`; `saveOk` is the outcome of the write, and a failed write leaves the file as it was. */
    method Save(data: Document, saveOk: bool) returns (saved: bool)
      modifies this
      ensures saved == saveOk
      ensures file == if saveOk then Stored(data) else old(file)
    {
      if saveOk {
        file := Stored(data);
      }
      saved := saveOk;
    }

    /** GET /api/personal: the personal record, `{}` when there is none; a failed load is not checked here. */
    method GetPersonal() returns (status: int, body: Value)
      ensures status == OK
      ensures file.Stored? && file.doc.personal.Some? ==> body == file.doc.personal.value
      ensures !(file.Stored? && file.doc.personal.Some?) ==> body == Object(map[])
    {
      var data := LoadData(file);
      status, body := OK, data.personal.GetOr(Object(map[]));
    }

    /**
     * PUT and PATCH /api/personal: PUT replaces the record with the body,
     * PATCH merges the body into it (raising, hence 500, when there is no
     * record or either side is not a dict).
     */
    method UpdatePersonal(change: Change, body: Value, saveOk: bool) returns (status: int)
      modifies this
      ensures var data := LoadData(old(file));
        if data.Failed() || !Truthy(body) then
          status == BadRequest && file == old(file)
        else if change == Put then
          status == (if saveOk then OK else ServerError)
          && file == (if saveOk then Stored(data.(personal := Some(body))) else old(file))
        else if data.personal.Some? && data.personal.value.Object? && body.Object? then
          status == (if saveOk then OK else ServerError)
          && file == (if saveOk
                      then Stored(data.(personal := Some(Object(Merge(data.personal.value.fields, body.fields)))))
                      else old(file))
        else
          status == ServerError && file == old(file)
    {
      var data := LoadData(file);
      if data.Failed() || !Truthy(body) {
        return BadRequest;
      }
      if change == Put {
        data := data.(personal := Some(body));
      } else if data.personal.Some? && data.personal.value.Object? && body.Object? {
        data := data.(personal := Some(Object(Merge(data.personal.value.fields, body.fields))));
      } else {
        return ServerError;
      }
      var saved := Save(data, saveOk);
      status := if saved then OK else ServerError;
    }

    /** GET on a list: the list, or 400 after a failed load. */
    method GetList(sec: Section) returns (status: int, items: seq<Dict>)
      ensures LoadData(file).Failed() ==> status == BadRequest && items == []
      ensures !LoadData(file).Failed() ==> status == OK && items == file.doc.List(sec)
    {
      var data := LoadData(file);
      if data.Failed() {
        return BadRequest, [];
      }
      return OK, data.List(sec);
    }

    /**
     * POST on a list: after validation, the body with a fresh `id` is
     * appended at the end; every earlier item stays as it was and in order.
     */
    method PostItem(sec: Section, body: Value, saveOk: bool) returns (status: int, created: Option<Dict>)
      modifies this
      ensures var data := LoadData(old(file)); var items := data.List(sec);
        if data.Failed() || !Truthy(body) || HasRequired(sec, body) == Some(false) then
          status == BadRequest && created.None? && file == old(file)
        else if HasRequired(sec, body).None? || !body.Object? || !NumericIds(items) then
          status == ServerError && created.None? && file == old(file)
        else if !saveOk then
          status == ServerError && created.None? && file == old(file)
        else
          && status == Created && created.Some?
          && "id" in created.value && created.value["id"].Int?
          && IsNextId(items, created.value["id"].n)
          && created.value == body.fields["id" := created.value["id"]]
          && file == Stored(data.WithList(sec, items + [created.value]))
    {
      var data := LoadData(file);
      if data.Failed() || !Truthy(body) {
        return BadRequest, None;
      }
      var valid := HasRequired(sec, body);
      if valid == Some(false) {
        return BadRequest, None;
      }
      var items := data.List(sec);
      var id := NextId(items);
      if valid.None? || !body.Object? || id.None? {
        return ServerError, None;
      }
      var item := body.fields["id" := Int(id.value)];
      data := data.WithList(sec, items + [item]);
      var saved := Save(data, saveOk);
      if saved {
        status, created := Created, Some(item);
      } else {
        status, created := ServerError, None;
      }
    }

    /** GET on an item: the first item with the requested id, else 404. */
    method GetItem(sec: Section, id: nat) returns (status: int, item: Option<Dict>)
      ensures var data := LoadData(file); var items := data.List(sec);
        if data.Failed() then
          status == BadRequest && item.None?
        else if forall j | 0 <= j < |items| :: !HasId(items[j], id) then
          status == NotFound && item.None?
        else
          status == OK && item.Some? && exists k :: IsFirstMatch(items, id, k) && item.value == items[k]
    {
      var data := LoadData(file);
      if data.Failed() {
        return BadRequest, None;
      }
      var items := data.List(sec);
      var k := FindFirst(items, id);
      if k.None? {
        return NotFound, None;
      }
      return OK, Some(items[k.value]);
    }

    /** DELETE on an item: exactly the first item with the id is removed; the rest keep their order. */
    method DeleteItem(sec: Section, id: nat, saveOk: bool) returns (status: int)
      modifies this
      ensures var data := LoadData(old(file)); var items := data.List(sec);
        if data.Failed() then
          status == BadRequest && file == old(file)
        else if forall j | 0 <= j < |items| :: !HasId(items[j], id) then
          status == NotFound && file == old(file)
        else
          exists k :: IsFirstMatch(items, id, k)
            && status == (if saveOk then OK else ServerError)
            && file == (if saveOk then Stored(data.WithList(sec, items[..k] + items[k + 1..])) else old(file))
    {
      var data := LoadData(file);
      if data.Failed() {
        return BadRequest;
      }
      var items := data.List(sec);
      var found := FindFirst(items, id);
      if found.None? {
        return NotFound;
      }
      var k := found.value;
      RemoveFoundItem(items, id, k);
      data := data.WithList(sec, RemoveFirst(items, items[k]));
      var saved := Save(data, saveOk);
      status := if saved then OK else ServerError;
    }

    /**
     * PUT and PATCH on an item, which the handler treats alike: the body is
     * merged into the first item with the id, in place; all other items
     * stay as they were.
     */
    method UpdateItem(sec: Section, id: nat, body: Value, saveOk: bool) returns (status: int)
      modifies this
      ensures var data := LoadData(old(file)); var items := data.List(sec);
        if data.Failed() then
          status == BadRequest && file == old(file)
        else if forall j | 0 <= j < |items| :: !HasId(items[j], id) then
          status == NotFound && file == old(file)
        else if !Truthy(body) then
          status == BadRequest && file == old(file)
        else if !body.Object? then
          status == ServerError && file == old(file)
        else
          exists k :: IsFirstMatch(items, id, k)
            && status == (if saveOk then OK else ServerError)
            && file == (if saveOk
                        then Stored(data.WithList(sec, items[k := Merge(items[k], body.fields)]))
                        else old(file))
    {
      var data := LoadData(file);
      if data.Failed() {
        return BadRequest;
      }
      var items := data.List(sec);
      var found := FindFirst(items, id);
      if found.None? {
        return NotFound;
      }
      if !Truthy(body) {
        return BadRequest;
      }
      if !body.Object? {
        return ServerError;
      }
      var k := found.value;
      data := data.WithList(sec, items[k := Merge(items[k], body.fields)]);
      var saved := Save(data, saveOk);
      status := if saved then OK else ServerError;
    }

    /** GET /api/interests. */
    method GetInterests() returns (status: int, interests: seq<Value>)
      ensures LoadData(file).Failed() ==> status == BadRequest && interests == []
      ensures !LoadData(file).Failed() ==> status == OK && interests == file.doc.interests
    {
      var data := LoadData(file);
      if data.Failed() {
        return BadRequest, [];
      }
      return OK, data.interests;
    }

    /** POST /api/interests: the body's name is appended only when it is not in the list yet. */
    method PostInterest(body: Value, saveOk: bool) returns (status: int)
      modifies this
      ensures var data := LoadData(old(file));
        if data.Failed() || !Truthy(body) || In("name", body) == Some(false) then
          status == BadRequest && file == old(file)
        else if In("name", body).None? || !body.Object? then
          status == ServerError && file == old(file)
        else if body.fields["name"] in data.interests then
          status == BadRequest && file == old(file)
        else
          status == (if saveOk then Created else ServerError)
          && file == (if saveOk
                      then Stored(data.(interests := data.interests + [body.fields["name"]]))
                      else old(file))
    {
      var data := LoadData(file);
      if data.Failed() || !Truthy(body) {
        return BadRequest;
      }
      var hasName := In("name", body);
      if hasName == Some(false) {
        return BadRequest;
      }
      if hasName.None? || !body.Object? {
        return ServerError;
      }
      var name := body.fields["name"];
      if name in data.interests {
        return BadRequest;
      }
      data := data.(interests := data.interests + [name]);
      var saved := Save(data, saveOk);
      status := if saved then Created else ServerError;
    }

    /** PUT /api/interests: a non-empty list replaces the interests wholesale. */
    method PutInterests(body: Value, saveOk: bool) returns (status: int)
      modifies this
      ensures var data := LoadData(old(file));
        if data.Failed() || !Truthy(body) || !body.Array? then
          status == BadRequest && file == old(file)
        else
          status == (if saveOk then OK else ServerError)
          && file == (if saveOk then Stored(data.(interests := body.items)) else old(file))
    {
      var data := LoadData(file);
      if data.Failed() || !Truthy(body) || !body.Array? {
        return BadRequest;
      }
      data := data.(interests := body.items);
      var saved := Save(data, saveOk);
      status := if saved then OK else ServerError;
    }
  }
}
