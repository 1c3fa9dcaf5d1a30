/** The validated-scales step (src/components/screening/ValidatedScales.jsx):
    the Patient-Specific Functional Scale list and the FABQ and PHQ-2
    answer maps. */
module ValidatedScales {
  import opened Js
  import Seqs

  /** At most three PSFS activities can be added. */
  const MAX_PSFS_ITEMS: nat := 3

  /** A PSFS entry. The handlers change its fields in place, so it is an
      object shared by every list that holds it. */
  class PsfsItem {
    var activity: string
    var rating: int

    constructor (activity: string, rating: int)
      ensures this.activity == activity && this.rating == rating
    {
      this.activity := activity;
      this.rating := rating;
    }
  }

  /** The entries as JSON records, as they are reported upward. */
  function ItemsJson(items: seq<PsfsItem>): (r: seq<Json>)
    reads items
    ensures |r| == |items|
    ensures forall i :: 0 <= i < |items| ==>
      r[i] == Obj(map["activity" := Str(items[i].activity), "rating" := Num(items[i].rating)])
  {
    if items == [] then []
    else [Obj(map["activity" := Str(items[0].activity), "rating" := Num(items[0].rating)])]
         + ItemsJson(items[1..])
  }

  /** updateParent: `{...data, psfs_items: newItems}`. */
  function Report(data: map<string, Json>, items: seq<PsfsItem>): (r: map<string, Json>)
    reads items
    ensures "psfs_items" in r && r["psfs_items"] == Arr(ItemsJson(items))
    ensures forall k :: k != "psfs_items" ==> (k in r <==> k in data)
    ensures forall k :: k != "psfs_items" && k in data ==> r[k] == data[k]
  {
    data["psfs_items" := Arr(ItemsJson(items))]
  }

  /** The PSFS editor: its list of entries and the scales record it was given. */
  class Psfs {
    var items: seq<PsfsItem>
    const data: map<string, Json>

    /** No entry appears twice in the list. */
    ghost predicate Valid()
      reads this
    {
      forall i, j :: 0 <= i < j < |items| ==> items[i] != items[j]
    }

    /** `useState(data.psfs_items || [])`: the initial entries are given. */
    constructor (data: map<string, Json>, initialItems: seq<PsfsItem>)
      requires forall i, j :: 0 <= i < j < |initialItems| ==> initialItems[i] != initialItems[j]
      ensures Valid() && items == initialItems && this.data == data
    {
      items := initialItems;
      this.data := data;
    }

    /** handleActivityChange: the list is copied, but the entry object is
        shared, so the previous list sees the new activity too. Only the
        entry's activity changes. */
    method HandleActivityChange(index: int, value: string) returns (report: map<string, Json>)
      requires Valid() && 0 <= index < |items|
      modifies this, items[index]
      ensures Valid() && items == old(items)
      ensures items[index].activity == value && items[index].rating == old(items[index].rating)
      ensures old(items)[index].activity == value
      ensures forall j :: 0 <= j < |items| && j != index ==>
        items[j].activity == old(items[j].activity) && items[j].rating == old(items[j].rating)
      ensures report == Report(data, items)
    {
      var newItems := items;
      newItems[index].activity := value;
      items := newItems;
      report := Report(data, newItems);
    }

    /** handleRatingChange: as above for the rating, which becomes the first
        element of the slider value. */
    method HandleRatingChange(index: int, value: seq<int>) returns (report: map<string, Json>)
      requires Valid() && 0 <= index < |items| && |value| >= 1
      modifies this, items[index]
      ensures Valid() && items == old(items)
      ensures items[index].rating == value[0] && items[index].activity == old(items[index].activity)
      ensures old(items)[index].rating == value[0]
      ensures forall j :: 0 <= j < |items| && j != index ==>
        items[j].activity == old(items[j].activity) && items[j].rating == old(items[j].rating)
      ensures report == Report(data, items)
    {
      var newItems := items;
      newItems[index].rating := value[0];
      items := newItems;
      report := Report(data, newItems);
    }

    /** addItem: a fresh entry `{activity: "", rating: 5}` at the end, only
        while fewer than three entries exist; otherwise nothing happens. */
    method AddItem() returns (report: Option<map<string, Json>>)
      requires Valid()
      modifies this
      ensures Valid()
      ensures |old(items)| < MAX_PSFS_ITEMS ==>
        |items| == |old(items)| + 1 && items[..|old(items)|] == old(items)
        && fresh(items[|items| - 1])
        && items[|items| - 1].activity == "" && items[|items| - 1].rating == 5
        && report == Some(Report(data, items))
      ensures |old(items)| >= MAX_PSFS_ITEMS ==> items == old(items) && report == None
      ensures |old(items)| <= MAX_PSFS_ITEMS ==> |items| <= MAX_PSFS_ITEMS
    {
      if |items| < MAX_PSFS_ITEMS {
        var item := new PsfsItem("", 5);
        var newItems := items + [item];
        items := newItems;
        report := Some(Report(data, newItems));
      } else {
        report := None;
      }
    }

    /** removeItem: exactly the entry at `index` leaves the list, the rest
        keep their order; an index out of range removes nothing. */
    method RemoveItem(index: int) returns (report: map<string, Json>)
      requires Valid()
      modifies this
      ensures Valid()
      ensures 0 <= index < |old(items)| ==> items == old(items)[..index] + old(items)[index + 1..]
      ensures !(0 <= index < |old(items)|) ==> items == old(items)
      ensures report == Report(data, items)
    {
      var newItems := Seqs.WithoutIndex(items, index);
      if 0 <= index < |items| {
        assert forall i :: 0 <= i < |newItems| ==> newItems[i] == (if i < index then items[i] else items[i + 1]);
      }
      items := newItems;
      report := Report(data, newItems);
    }

    /** The add button is shown only below three entries. */
    predicate CanAdd()
      reads this
    {
      |items| < MAX_PSFS_ITEMS
    }
  }

  /** FABQ answers run 0..6, PHQ-2 answers 0..3. */
  const FABQ_OPTIONS: seq<int> := [0, 1, 2, 3, 4, 5, 6]
  const PHQ_OPTIONS: seq<int> := [0, 1, 2, 3]
  const FABQ_IDS: seq<string> := ["fabq1", "fabq2"]
  const PHQ_IDS: seq<string> := ["phq1", "phq2"]

  /** `data[fieldName] || {}`: the answers recorded so far. */
  function Responses(data: Json, fieldName: string): (r: Json)
    requires data.Readable()
    ensures r.Readable()
  {
    Or(Get(data, fieldName), Obj(map[]))
  }

  /** handleResponseChange: the answer to `questionId` is set inside the
      answers under `fieldName`; every other answer and every other field of
      the scales record is kept. */
  function HandleResponseChange(data: Json, fieldName: string, questionId: string, value: Json): (r: Json)
    requires data.Readable()
    ensures r.Obj? && fieldName in r.fields && r.fields[fieldName].Obj?
    ensures questionId in r.fields[fieldName].fields && r.fields[fieldName].fields[questionId] == value
    ensures forall q :: q != questionId ==>
      (q in r.fields[fieldName].fields <==> q in SpreadFields(Responses(data, fieldName)))
    ensures forall q :: q != questionId && q in r.fields[fieldName].fields ==>
      r.fields[fieldName].fields[q] == SpreadFields(Responses(data, fieldName))[q]
    ensures forall k :: k != fieldName ==> (k in r.fields <==> k in SpreadFields(data))
    ensures forall k :: k != fieldName && k in r.fields ==> r.fields[k] == SpreadFields(data)[k]
  {
    var newResponses := Obj(SpreadFields(Responses(data, fieldName))[questionId := value]);
    Obj(SpreadFields(data)[fieldName := newResponses])
  }

  /** The selected option of a question: its numeric answer, if any. */
  function SelectedOption(data: Json, fieldName: string, questionId: string): Option<int>
    requires data.Readable()
  {
    var answer := Get(Responses(data, fieldName), questionId);
    if answer.Num? then Some(answer.n) else None
  }

  /** Picking an offered option makes it the selected one, leaves every
      other question's selection alone, and keeps answers within the scale. */
  lemma AnswerIsSelected(data: Json, fieldName: string, questionId: string, other: string, v: int)
    requires data.Readable() && other != questionId
    requires fieldName == "fabq_responses" ==> v in FABQ_OPTIONS
    requires fieldName == "phq_responses" ==> v in PHQ_OPTIONS
    ensures var d := HandleResponseChange(data, fieldName, questionId, Num(v));
      SelectedOption(d, fieldName, questionId) == Some(v)
      && SelectedOption(d, fieldName, other) == SelectedOption(data, fieldName, other)
    ensures fieldName == "fabq_responses" ==> 0 <= v <= 6
    ensures fieldName == "phq_responses" ==> 0 <= v <= 3
  {
    var d := HandleResponseChange(data, fieldName, questionId, Num(v));
    var before := Responses(data, fieldName);
    var after := SpreadFields(before)[questionId := Num(v)];
    assert Responses(d, fieldName) == Obj(after) by {
      assert d.fields[fieldName] == Obj(after);
    }
    SpreadUpdateKeepsOthers(before, questionId, Num(v), other);
  }

  /** Writing one key of a spread copy leaves every other key reading as it
      did on the original value. */
  lemma SpreadUpdateKeepsOthers(before: Json, key: string, value: Json, other: string)
    requires before.Readable() && other != key
    ensures Get(Obj(SpreadFields(before)[key := value]), other) == Get(before, other)
  {
  }

  /** `data.scales || {}`: the record the component hands to PSFS and to both
      questionnaires. The wizard passes the scales slice itself as `data`, so
      this looks for a `scales` key inside the slice (see WiredScalesForget). */
  function ScalesRecord(data: Json): (r: Json)
    requires data.Readable()
    ensures Truthy(Get(data, "scales")) ==> r == Get(data, "scales")
    ensures !Truthy(Get(data, "scales")) ==> r == Obj(map[])
    ensures r.Readable()
  {
    Or(Get(data, "scales"), Obj(map[]))
  }

  /** As wired, the stored slice has no `scales` key, so the component works
      on `{}`: no question shows a selection, even right after it is answered,
      an answer is stored as a slice holding that answer alone, and a PSFS
      edit is stored as a slice holding only the items. */
  lemma WiredScalesForget(slice: Json, fieldName: string, questionId: string, v: int,
                          items: seq<PsfsItem>)
    requires slice.Obj? && "scales" !in slice.fields && fieldName != "scales"
    ensures ScalesRecord(slice) == Obj(map[])
    ensures forall q :: SelectedOption(ScalesRecord(slice), fieldName, q) == None
    ensures var stored := HandleResponseChange(ScalesRecord(slice), fieldName, questionId, Num(v));
      stored == Obj(map[fieldName := Obj(map[questionId := Num(v)])])
      && ScalesRecord(stored) == Obj(map[])
      && SelectedOption(ScalesRecord(stored), fieldName, questionId) == None
    ensures Report(SpreadFields(ScalesRecord(slice)), items) == map["psfs_items" := Arr(ItemsJson(items))]
  {
    var stored := HandleResponseChange(ScalesRecord(slice), fieldName, questionId, Num(v));
    assert stored.fields.Keys == {fieldName};
    assert stored.fields[fieldName].fields.Keys == {questionId};
  }

  /** The record the component evidently means to edit: the slice it is
      given, `data || {}`. */
  function SliceScales(slice: Json): (r: Json)
    ensures Truthy(slice) ==> r == slice
    ensures !Truthy(slice) ==> r == Obj(map[])
    ensures r.Readable()
  {
    Or(slice, Obj(map[]))
  }

  /** Editing the slice itself keeps everything: after an answer is stored,
      the radio group shows it, every other question shows what it showed,
      and every other key of the slice (the PSFS items among them) is kept;
      a PSFS report keeps every answer map. */
  lemma SliceScalesKeepAnswers(slice: Json, fieldName: string, questionId: string, other: string,
                               v: int, items: seq<PsfsItem>)
    requires slice.Obj? && other != questionId
    ensures var stored := HandleResponseChange(SliceScales(slice), fieldName, questionId, Num(v));
      SelectedOption(SliceScales(stored), fieldName, questionId) == Some(v)
      && SelectedOption(SliceScales(stored), fieldName, other) == SelectedOption(SliceScales(slice), fieldName, other)
      && (forall k :: k != fieldName && k in slice.fields ==> k in stored.fields && stored.fields[k] == slice.fields[k])
    ensures var report := Report(SpreadFields(SliceScales(slice)), items);
      forall k :: k != "psfs_items" && k in slice.fields ==> k in report && report[k] == slice.fields[k]
  {
    var stored := HandleResponseChange(SliceScales(slice), fieldName, questionId, Num(v));
    assert SliceScales(stored) == stored;
    var before := Responses(SliceScales(slice), fieldName);
    var after := SpreadFields(before)[questionId := Num(v)];
    assert Responses(stored, fieldName) == Obj(after) by {
      assert stored.fields[fieldName] == Obj(after);
    }
    SpreadUpdateKeepsOthers(before, questionId, Num(v), other);
  }
}
