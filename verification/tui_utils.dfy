/** UI helper (src/tui/utils.rs): finding a row of a list view by its
    label. */
module TuiUtils {
  import opened Errors

  /** A child of a list view: a labelled row holding a view, or a
      delimiter line. */
  datatype ListChild<V> = Row(rowLabel: string, view: V) | Delimiter

  /** The child is a row with exactly this label; delimiters never are. */
  predicate IsRowLabelled<V>(child: ListChild<V>, key: string)
  {
    child.Row? && child.rowLabel == key
  }

  /** `position`: the index of the first row labelled `key`. */
  function Position<V>(children: seq<ListChild<V>>, key: string): (r: Option<nat>)
    ensures r.None? <==> forall i :: 0 <= i < |children| ==> !IsRowLabelled(children[i], key)
    ensures r.Some? ==>
      r.value < |children| && IsRowLabelled(children[r.value], key) &&
      forall i :: 0 <= i < r.value ==> !IsRowLabelled(children[i], key)
    decreases |children|
  {
    if |children| == 0 then None
    else if IsRowLabelled(children[0], key) then Some(0)
    else
      match Position(children[1..], key)
      case None => None
      case Some(k) => Some(k + 1)
  }

  /** `get_list_child`: the view of the first row labelled `key`, or
      `None` when no row has that label. */
  function GetListChild<V>(children: seq<ListChild<V>>, key: string): (r: Option<V>)
    ensures r.Some? <==> exists i :: 0 <= i < |children| && IsRowLabelled(children[i], key)
    ensures r.Some? ==> exists i :: (0 <= i < |children| && IsRowLabelled(children[i], key) &&
      children[i].view == r.value &&
      forall j :: 0 <= j < i ==> !IsRowLabelled(children[j], key))
  {
    match Position(children, key)
    case None => None
    case Some(index) => Some(children[index].view)
  }

  /** Rows are matched by exact label; a delimiter before the row or a row
      with the same label later on does not change the result. */
  lemma GetListChildExample<V>(a: V, b: V)
    ensures GetListChild([Delimiter, Row("web", a), Row("web", b)], "web") == Some(a)
    ensures GetListChild([Delimiter, Row("web", a)], "Web") == None
    ensures GetListChild<V>([Delimiter], "") == None
  {
    var children := [Delimiter, Row("web", a), Row("web", b)];
    assert !IsRowLabelled(children[0], "web") && IsRowLabelled(children[1], "web");
    assert Position(children, "web") == Some(1) by {
      assert children[1..] == [Row("web", a), Row("web", b)];
    }
    assert "web" != "Web";
  }
}
