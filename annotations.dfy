/** The decision rules of the annotations inspector view: whether the view
    can be shown for a selection, and with which priority. The host's
    queries (tags, type registry, telemetry metadata, editing state) are
    inputs. */
module Annotations {
  import opened Wrappers
  import opened Domain

  const NotebookEntrySelection := "notebook-entry-selection"
  const ClickedOnImageSelection := "clicked-on-image-selection"
  const ConditionSetType := "conditionSet"
  const ImageHint := "image"

  /** The context attached to a selected element. `layoutItem` stands for
      the truthiness of the context's layout item; `contextType` is absent
      when the context carries no type. */
  datatype SelectionContext = SelectionContext(
    item: Option<DomainObject>,
    layoutItem: bool,
    contextType: Option<string>)

  /** A selection: a list of paths, each a list of selected elements, each of
      which may or may not carry a context. */
  type Selection = seq<seq<Option<SelectionContext>>>

  /** One telemetry value's metadata: its key and its hints (hint name to
      hint rank). */
  datatype ValueMetadata = ValueMetadata(key: string, hints: map<string, int>)

  datatype TelemetryMetadata = TelemetryMetadata(values: seq<ValueMetadata>)

  /** The answers of the host's services, taken as inputs. */
  datatype Host = Host(
    availableTags: seq<string>,
    isAnnotatableType: string -> bool,
    getMetadata: DomainObject -> Option<TelemetryMetadata>,
    hasNumericTelemetry: DomainObject -> bool,
    isEditing: bool)

  /** The context of the first element of the first path, when there is one. */
  function FirstContext(selection: Selection): (c: Option<SelectionContext>)
    ensures c.Some? <==> |selection| > 0 && |selection[0]| > 0 && selection[0][0].Some?
    ensures c.Some? ==> c == selection[0][0]
  {
    if |selection| > 0 && |selection[0]| > 0 then selection[0][0] else None
  }

  /** The selected domain object: the item of the first context. */
  function SelectedItem(context: Option<SelectionContext>): (item: Option<DomainObject>)
  {
    if context.Some? then context.value.item else None
  }

  predicate IsLayoutItem(context: Option<SelectionContext>)
  {
    context.Some? && context.value.layoutItem
  }

  predicate HasContextType(context: Option<SelectionContext>, t: string)
  {
    context.Some? && context.value.contextType == Some(t)
  }

  predicate IsNotebookEntry(context: Option<SelectionContext>)
  {
    HasContextType(context, NotebookEntrySelection)
  }

  predicate IsImageSelection(context: Option<SelectionContext>)
  {
    HasContextType(context, ClickedOnImageSelection)
  }

  /** A missing item is not a condition set. */
  predicate IsConditionSet(context: Option<SelectionContext>)
  {
    var item := SelectedItem(context);
    item.Some? && item.value.objectType == ConditionSetType
  }

  /** A value carries every one of the given hints. */
  predicate HasHints(value: ValueMetadata, hints: seq<string>)
  {
    forall h :: h in hints ==> h in value.hints
  }

  /** The metadata's `valuesForHints`: the values that carry every given
      hint, in their original order. */
  function ValuesForHints(values: seq<ValueMetadata>, hints: seq<string>): (r: seq<ValueMetadata>)
    ensures |r| <= |values|
    ensures forall v :: v in r <==> v in values && HasHints(v, hints)
  {
    if values == [] then []
    else
      var rest := ValuesForHints(values[1..], hints);
      if HasHints(values[0], hints) then [values[0]] + rest else rest
  }

  /** Imagery is present when there is metadata and at least one of its
      values carries the image hint. */
  function HasImagery(metadata: Option<TelemetryMetadata>): (r: bool)
    ensures metadata.None? ==> !r
    ensures metadata.Some? ==> (r <==> exists v :: v in metadata.value.values && ImageHint in v.hints)
  {
    if metadata.None? then false
    else
      var matching := ValuesForHints(metadata.value.values, [ImageHint]);
      if |matching| > 0 then
        assert matching[0] in matching;
        true
      else
        assert forall v :: v in metadata.value.values && ImageHint in v.hints ==> v in matching;
        false
  }

  /** The view is offered only when tags exist, the first context has an
      item and is not a layout item, and the host is not editing; then it
      is offered when the item is of an annotatable type, has imagery or
      numeric telemetry, or the selection is a notebook entry. */
  function CanView(host: Host, selection: Selection): (r: bool)
    ensures |host.availableTags| == 0 ==> !r
    ensures IsLayoutItem(FirstContext(selection)) ==> !r
    ensures host.isEditing ==> !r
    ensures (|selection| == 0 || |selection[0]| == 0 || selection[0][0].None?) ==> !r
    ensures SelectedItem(FirstContext(selection)).None? ==> !r
    ensures
      var context := FirstContext(selection);
      var item := SelectedItem(context);
      |host.availableTags| > 0 && !IsLayoutItem(context) && item.Some? && !host.isEditing ==>
        (r <==> host.isAnnotatableType(item.value.objectType)
                || (host.getMetadata(item.value).Some?
                    && exists v :: v in host.getMetadata(item.value).value.values && ImageHint in v.hints)
                || host.hasNumericTelemetry(item.value)
                || IsNotebookEntry(context))
  {
    var context := FirstContext(selection);
    var item := SelectedItem(context);
    if |host.availableTags| < 1 || IsLayoutItem(context) || item.None? || host.isEditing then
      false
    else
      var isAnnotatableType := host.isAnnotatableType(item.value.objectType);
      var hasImagery := HasImagery(host.getMetadata(item.value));
      var isNotebookEntry := IsNotebookEntry(context);
      var hasNumericTelemetry := host.hasNumericTelemetry(item.value);
      isAnnotatableType || hasImagery || hasNumericTelemetry || isNotebookEntry
  }

  /** The view's priority: highest for notebook entries and clicked images,
      whatever the item's type; otherwise low for condition sets and the
      default for everything else. */
  function ViewPriority(selection: Selection): (p: Priority)
    ensures
      var context := FirstContext(selection);
      && (IsNotebookEntry(context) || IsImageSelection(context) ==> p == Highest)
      && (p == Low <==> !IsNotebookEntry(context) && !IsImageSelection(context) && IsConditionSet(context))
      && (p == Default <==> !IsNotebookEntry(context) && !IsImageSelection(context) && !IsConditionSet(context))
  {
    var context := FirstContext(selection);
    var isImageSelection := IsImageSelection(context);
    var isNotebookEntry := IsNotebookEntry(context);
    var isConditionSet := IsConditionSet(context);
    if isNotebookEntry || isImageSelection then Highest
    else if isConditionSet then Low
    else Default
  }
}
