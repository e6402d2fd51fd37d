/** packages/dashboard/src/components/deliveries/deliveriesFilter.tsx: the
    filter builder of the deliveries table. A popover walks through stages
    (pick a key, then pick items or type a value) and accumulates one filter
    per key; chips show the filters and delete them. */
module DeliveriesFilter {
  import opened Wrappers

  /** `Key`. */
  datatype FilterKey = Template | Status | To | From | Channel

  /** The keys whose filters are sets of picked items. */
  predicate IsItemKey(key: FilterKey)
  {
    key == Template || key == Status || key == Channel
  }

  function KeyName(key: FilterKey): string
  {
    match key
    case Template => "template"
    case Status => "status"
    case To => "to"
    case From => "from"
    case Channel => "channel"
  }

  /** The internal event types offered under `status`. */
  datatype StatusEvent =
    | MessageSent | EmailBounced | EmailMarkedSpam | EmailOpened | EmailClicked
    | EmailDelivered | EmailDropped | SmsDelivered | SmsFailed

  datatype ChannelKind = EmailChannel | SmsChannel | WebhookChannel

  /** The id of a pickable item. */
  datatype ItemId = TemplateId(id: string) | StatusId(event: StatusEvent) | ChannelId(channel: ChannelKind)

  /** `DeliveriesFilterCommand`. */
  datatype Command =
    | SelectItemCommand(caption: string, id: ItemId)
    | SelectKeyCommand(caption: string, filterKey: FilterKey)

  /** A `NameIdFilter` holds a JavaScript `Map` from item id to caption, which
      keeps insertion order; a `ValueFilter` holds typed text. */
  datatype Filter = KeyFilter(entries: seq<(ItemId, string)>) | ValueFilter(value: string)

  /** `Stage`; a SelectValue stage always carries a value filter, so only
      its text is kept. */
  datatype Stage =
    | SelectKeyStage
    | SelectItemStage(filterKey: FilterKey, children: seq<Command>)
    | SelectValueStage(caption: string, filterKey: FilterKey, value: string)

  /** A message template from the app store. */
  datatype MessageTemplate = MessageTemplate(id: string, name: string)

  // ---------------------------------------------------------------------
  // The insertion-ordered id-to-caption map
  // ---------------------------------------------------------------------

  function IndexOfId(entries: seq<(ItemId, string)>, id: ItemId): (r: Option<nat>)
    ensures r.Some? ==> r.value < |entries| && entries[r.value].0 == id
                        && forall j :: 0 <= j < r.value ==> entries[j].0 != id
    ensures r.None? ==> forall j :: 0 <= j < |entries| ==> entries[j].0 != id
  {
    if entries == [] then None
    else if entries[0].0 == id then Some(0)
    else match IndexOfId(entries[1..], id)
      case None => None
      case Some(i) => Some(i + 1)
  }

  /** `Map.get`. */
  function MapGet(entries: seq<(ItemId, string)>, id: ItemId): Option<string>
  {
    match IndexOfId(entries, id)
    case None => None
    case Some(i) => Some(entries[i].1)
  }

  predicate DistinctIds(entries: seq<(ItemId, string)>)
  {
    forall i, j :: 0 <= i < j < |entries| ==> entries[i].0 != entries[j].0
  }

  /** `Map.set`: a present id keeps its position and takes the new caption; a
      new id goes last. Afterwards the id maps to the caption, every other id
      keeps its caption, ids stay distinct, and the entries only grow. */
  function MapSet(entries: seq<(ItemId, string)>, id: ItemId, caption: string): (r: seq<(ItemId, string)>)
    ensures MapGet(r, id) == Some(caption)
    ensures forall other :: other != id ==> MapGet(r, other) == MapGet(entries, other)
    ensures DistinctIds(entries) ==> DistinctIds(r)
    ensures |r| == if MapGet(entries, id).Some? then |entries| else |entries| + 1
    ensures forall i :: 0 <= i < |entries| ==> r[i].0 == entries[i].0
  {
    match IndexOfId(entries, id)
    case Some(i) =>
      var r := entries[i := (id, caption)];
      assert IndexOfId(r, id) == Some(i) by {
        var k := IndexOfId(r, id);
        assert r[i].0 == id;
        assert k.Some?;
        assert k.value <= i;
      }
      forall other | other != id ensures MapGet(r, other) == MapGet(entries, other) {
        MapGetUnchangedAt(entries, i, (id, caption), other);
      }
      r
    case None =>
      var r := entries + [(id, caption)];
      assert IndexOfId(r, id) == Some(|entries|) by {
        var k := IndexOfId(r, id);
        assert r[|entries|].0 == id;
        assert k.Some?;
      }
      forall other | other != id ensures MapGet(r, other) == MapGet(entries, other) {
        MapGetAppend(entries, (id, caption), other);
      }
      r
  }

  lemma MapGetUnchangedAt(entries: seq<(ItemId, string)>, i: nat, e: (ItemId, string), other: ItemId)
    requires i < |entries| && entries[i].0 == e.0 && other != e.0
    ensures MapGet(entries[i := e], other) == MapGet(entries, other)
  {
    var r := entries[i := e];
    var a := IndexOfId(entries, other);
    var b := IndexOfId(r, other);
    if a.Some? {
      assert r[a.value] == entries[a.value];
      assert b.Some? && b.value <= a.value;
      assert entries[b.value] == r[b.value];
    }
  }

  lemma MapGetAppend(entries: seq<(ItemId, string)>, e: (ItemId, string), other: ItemId)
    requires other != e.0
    ensures MapGet(entries + [e], other) == MapGet(entries, other)
  {
    var r := entries + [e];
    var a := IndexOfId(entries, other);
    var b := IndexOfId(r, other);
    if a.Some? {
      assert r[a.value] == entries[a.value];
      assert b.Some? && b.value <= a.value;
    } else {
      assert r[|entries|].0 != other;
    }
  }

  // ---------------------------------------------------------------------
  // Commands and children
  // ---------------------------------------------------------------------

  /** The commands offered while picking a key. */
  function KeyCommands(): seq<Command>
  {
    [SelectKeyCommand("Template", Template), SelectKeyCommand("To", To),
     SelectKeyCommand("From", From), SelectKeyCommand("Status", Status)]
  }

  /** The stage-to-commands mapping: the key commands while picking a key,
      nothing while typing a value, the children while picking items. */
  function Commands(stage: Stage): (r: seq<Command>)
    ensures stage.SelectKeyStage? ==>
              forall c :: c in r <==> c.SelectKeyCommand? && c.filterKey in {Template, To, From, Status}
                                      && c.caption == (match c.filterKey
                                                     case Template => "Template" case To => "To"
                                                     case From => "From" case Status => "Status"
                                                     case Channel => "")
    ensures stage.SelectValueStage? ==> r == []
    ensures stage.SelectItemStage? ==> r == stage.children
  {
    match stage
    case SelectKeyStage => KeyCommands()
    case SelectValueStage(_, _, _) => []
    case SelectItemStage(_, children) => children
  }

  function TemplateChildren(templates: seq<MessageTemplate>): (r: seq<Command>)
    ensures |r| == |templates|
    ensures forall i :: 0 <= i < |r| ==> r[i] == SelectItemCommand(templates[i].name, TemplateId(templates[i].id))
  {
    if templates == [] then []
    else [SelectItemCommand(templates[0].name, TemplateId(templates[0].id))] + TemplateChildren(templates[1..])
  }

  /** The status items as the source lists them: "Email Bounced" appears a
      second time, carrying the EmailDelivered id. */
  function StatusChildrenAsWritten(): seq<Command>
  {
    [SelectItemCommand("Sent", StatusId(MessageSent)),
     SelectItemCommand("Email Bounced", StatusId(EmailBounced)),
     SelectItemCommand("Email Marked as Spam", StatusId(EmailMarkedSpam)),
     SelectItemCommand("Email Opened", StatusId(EmailOpened)),
     SelectItemCommand("Email Link Clicked", StatusId(EmailClicked)),
     SelectItemCommand("Email Delivered", StatusId(EmailDelivered)),
     SelectItemCommand("Email Bounced", StatusId(EmailDelivered)),
     SelectItemCommand("Email Dropped", StatusId(EmailDropped)),
     SelectItemCommand("Sms Delivered", StatusId(SmsDelivered)),
     SelectItemCommand("Sms Failed", StatusId(SmsFailed))]
  }

  /** The status items without the duplicate: one item per event type,
      no two with the same caption or id. */
  function StatusChildren(): (r: seq<Command>)
    ensures forall c :: c in r ==> c.SelectItemCommand? && c.id.StatusId?
    ensures forall i, j :: 0 <= i < j < |r| ==> r[i].id != r[j].id && r[i].caption != r[j].caption
  {
    var r := [SelectItemCommand("Sent", StatusId(MessageSent)),
              SelectItemCommand("Email Bounced", StatusId(EmailBounced)),
              SelectItemCommand("Email Marked as Spam", StatusId(EmailMarkedSpam)),
              SelectItemCommand("Email Opened", StatusId(EmailOpened)),
              SelectItemCommand("Email Link Clicked", StatusId(EmailClicked)),
              SelectItemCommand("Email Delivered", StatusId(EmailDelivered)),
              SelectItemCommand("Email Dropped", StatusId(EmailDropped)),
              SelectItemCommand("Sms Delivered", StatusId(SmsDelivered)),
              SelectItemCommand("Sms Failed", StatusId(SmsFailed))];
    r
  }

  /** Every event type is offered. */
  lemma StatusChildrenCoverEvents(event: StatusEvent)
    ensures exists i :: 0 <= i < |StatusChildren()| && StatusChildren()[i].id == StatusId(event)
  {
    var r := StatusChildren();
    match event
    case MessageSent => assert r[0].id == StatusId(event);
    case EmailBounced => assert r[1].id == StatusId(event);
    case EmailMarkedSpam => assert r[2].id == StatusId(event);
    case EmailOpened => assert r[3].id == StatusId(event);
    case EmailClicked => assert r[4].id == StatusId(event);
    case EmailDelivered => assert r[5].id == StatusId(event);
    case EmailDropped => assert r[6].id == StatusId(event);
    case SmsDelivered => assert r[7].id == StatusId(event);
    case SmsFailed => assert r[8].id == StatusId(event);
  }

  /** The corrected list is the written one with its seventh item dropped. */
  lemma StatusChildrenDropsDuplicate()
    ensures StatusChildren() == StatusChildrenAsWritten()[..6] + StatusChildrenAsWritten()[7..]
  {
  }

  function ChannelChildren(): seq<Command>
  {
    [SelectItemCommand("Email", ChannelId(EmailChannel)),
     SelectItemCommand("SMS", ChannelId(SmsChannel)),
     SelectItemCommand("Webhook", ChannelId(WebhookChannel))]
  }

  /** The stage a key command leads to: typing a value for `to` and `from`,
      picking items for the others (templates only once they are loaded).
      Status offers the items as the source lists them, duplicate included. */
  function StageFor(key: FilterKey, caption: string, messages: Option<seq<MessageTemplate>>): (r: Stage)
    ensures !IsItemKey(key) ==> r == SelectValueStage(caption, key, "")
    ensures IsItemKey(key) ==> r.SelectItemStage? && r.filterKey == key
    ensures key == Template ==> r.children == TemplateChildren(messages.GetOr([]))
    ensures key == Status ==> r.children == StatusChildrenAsWritten()
    ensures key == Channel ==> r.children == ChannelChildren()
  {
    match key
    case Template => SelectItemStage(Template, TemplateChildren(messages.GetOr([])))
    case To => SelectValueStage(caption, To, "")
    case From => SelectValueStage(caption, From, "")
    case Status => SelectItemStage(Status, StatusChildrenAsWritten())
    case Channel => SelectItemStage(Channel, ChannelChildren())
  }

  /** `channel` is handled when chosen but never offered as a key. */
  lemma ChannelNeverOffered()
    ensures forall c :: c in Commands(SelectKeyStage) ==> c.filterKey != Channel
  {
  }

  // ---------------------------------------------------------------------
  // Chips
  // ---------------------------------------------------------------------

  function Join(parts: seq<string>, separator: string): string
  {
    if parts == [] then ""
    else if |parts| == 1 then parts[0]
    else parts[0] + separator + Join(parts[1..], separator)
  }

  function Labels(entries: seq<(ItemId, string)>): (r: seq<string>)
    ensures |r| == |entries| && forall i :: 0 <= i < |r| ==> r[i] == entries[i].1
  {
    if entries == [] then [] else [entries[0].1] + Labels(entries[1..])
  }

  /** The chip text: item labels joined with " OR ", or the typed value. */
  function ChipLabel(key: FilterKey, filter: Filter): string
  {
    KeyName(key) + " = " + match filter
      case KeyFilter(entries) => Join(Labels(entries), " OR ")
      case ValueFilter(value) => value
  }

  lemma ChipLabelOfTwoItems(key: FilterKey, a: (ItemId, string), b: (ItemId, string))
    ensures ChipLabel(key, KeyFilter([a, b])) == KeyName(key) + " = " + a.1 + " OR " + b.1
  {
    assert Labels([a, b]) == [a.1, b.1];
    assert Join([a.1, b.1], " OR ") == a.1 + " OR " + b.1 by {
      assert [a.1, b.1][1..] == [b.1];
    }
  }

  // ---------------------------------------------------------------------
  // The state and its transitions
  // ---------------------------------------------------------------------

  /** Stages point at keys of the right kind. */
  predicate StageValid(stage: Stage)
  {
    && (stage.SelectItemStage? ==> IsItemKey(stage.filterKey))
    && (stage.SelectValueStage? ==> !IsItemKey(stage.filterKey))
  }

  /** Item keys hold non-empty item filters without repeated ids; the other
      keys hold value filters. */
  predicate FiltersValid(filters: map<FilterKey, Filter>)
  {
    forall key :: key in filters ==>
      (filters[key].KeyFilter? <==> IsItemKey(key))
      && (filters[key].KeyFilter? ==> |filters[key].entries| > 0 && DistinctIds(filters[key].entries))
  }

  /** `DeliveriesState`; the anchor element is identified by a name. */
  class DeliveriesFilterState {
    var open: bool
    var anchorEl: Option<string>
    var inputValue: string
    var stage: Stage
    var filters: map<FilterKey, Filter>

    predicate Valid()
      reads this
    {
      StageValid(stage) && FiltersValid(filters)
    }

    /** `useDeliveriesFilterState`: closed, no anchor, empty input, picking
        a key, no filters. */
    constructor()
      ensures !open && anchorEl.None? && inputValue == "" && stage == SelectKeyStage && filters == map[]
      ensures Valid()
    {
      open := false;
      anchorEl := None;
      inputValue := "";
      stage := SelectKeyStage;
      filters := map[];
    }

    /** `handleCommandSelect`. Picking an item outside an item stage does
        nothing. Inside one it clears the input, closes the popover and adds
        the item to the key's item filter, creating it if absent; a value
        filter already under the key is left alone. Picking a key only moves
        to the stage for that key. */
    method HandleCommandSelect(value: Option<Command>, messages: Option<seq<MessageTemplate>>)
      modifies this
      requires Valid()
      ensures Valid()
      ensures value.None? || (value.value.SelectItemCommand? && !old(stage).SelectItemStage?) ==>
                open == old(open) && anchorEl == old(anchorEl) && inputValue == old(inputValue)
                && stage == old(stage) && filters == old(filters)
      ensures value.Some? && value.value.SelectItemCommand? && old(stage).SelectItemStage? ==>
                var key := old(stage).filterKey;
                !open && inputValue == "" && anchorEl == old(anchorEl) && stage == old(stage)
                && key in filters
                && filters[key] == KeyFilter(MapSet(if key in old(filters) then old(filters)[key].entries else [],
                                                    value.value.id, value.value.caption))
                && MapGet(filters[key].entries, value.value.id) == Some(value.value.caption)
                && (forall other :: other != value.value.id ==>
                      MapGet(filters[key].entries, other)
                      == (if key in old(filters) then MapGet(old(filters)[key].entries, other) else None))
                && (forall k :: k != key ==> (k in filters <==> k in old(filters))
                                             && (k in filters ==> filters[k] == old(filters)[k]))
      ensures value.Some? && value.value.SelectKeyCommand? ==>
                stage == StageFor(value.value.filterKey, value.value.caption, messages)
                && open == old(open) && anchorEl == old(anchorEl) && inputValue == old(inputValue)
                && filters == old(filters)
    {
      if value.None? {
        return;
      }
      match value.value
      case SelectItemCommand(caption, id) =>
        if !stage.SelectItemStage? {
          return;
        }
        var key := stage.filterKey;
        inputValue := "";
        open := false;
        var maybeExisting := if key in filters then Some(filters[key]) else None;
        if maybeExisting.Some? && maybeExisting.value.ValueFilter? {
          // Unreachable while the state is valid: item keys never hold value filters.
          assert false;
          return;
        }
        var existing := maybeExisting.GetOr(KeyFilter([]));
        filters := filters[key := KeyFilter(MapSet(existing.entries, id, caption))];
      case SelectKeyCommand(caption, filterKey) =>
        stage := StageFor(filterKey, caption, messages);
    }

    /** The value stage's `onChange`: the typed text replaces the stage's
        value; outside the value stage nothing changes. */
    method OnValueChange(text: string)
      modifies this
      requires Valid()
      ensures Valid()
      ensures old(stage).SelectValueStage? ==> stage == old(stage).(value := text)
      ensures !old(stage).SelectValueStage? ==> stage == old(stage)
      ensures open == old(open) && anchorEl == old(anchorEl) && inputValue == old(inputValue) && filters == old(filters)
    {
      if stage.SelectValueStage? {
        stage := stage.(value := text);
      }
    }

    /** The value stage's `onKeyDown` as written: Enter stores the search
        box text `inputValue`, not the typed stage value, then resets. */
    method OnValueKeyDownAsWritten(key: string)
      modifies this
      requires Valid()
      ensures Valid()
      ensures key == "Enter" && old(stage).SelectValueStage? ==>
                filters == old(filters)[old(stage).filterKey := ValueFilter(old(inputValue))]
                && !open && stage == SelectKeyStage && inputValue == "" && anchorEl == old(anchorEl)
      ensures key != "Enter" || !old(stage).SelectValueStage? ==>
                open == old(open) && anchorEl == old(anchorEl) && inputValue == old(inputValue)
                && stage == old(stage) && filters == old(filters)
    {
      if key != "Enter" {
        return;
      }
      var value := inputValue;
      if !stage.SelectValueStage? {
        return;
      }
      filters := filters[stage.filterKey := ValueFilter(value)];
      open := false;
      stage := SelectKeyStage;
      inputValue := "";
    }

    /** Enter in the value stage, storing the typed value: the key gets a
        value filter holding it, and the popover resets and closes. */
    method OnValueKeyDown(key: string)
      modifies this
      requires Valid()
      ensures Valid()
      ensures key == "Enter" && old(stage).SelectValueStage? ==>
                filters == old(filters)[old(stage).filterKey := ValueFilter(old(stage).value)]
                && !open && stage == SelectKeyStage && inputValue == "" && anchorEl == old(anchorEl)
      ensures key != "Enter" || !old(stage).SelectValueStage? ==>
                open == old(open) && anchorEl == old(anchorEl) && inputValue == old(inputValue)
                && stage == old(stage) && filters == old(filters)
    {
      if key != "Enter" || !stage.SelectValueStage? {
        return;
      }
      filters := filters[stage.filterKey := ValueFilter(stage.value)];
      open := false;
      stage := SelectKeyStage;
      inputValue := "";
    }

    /** The autocomplete's `onInputChange`. */
    method OnInputChange(newInputValue: string)
      modifies this
      requires Valid()
      ensures Valid()
      ensures inputValue == newInputValue
      ensures open == old(open) && anchorEl == old(anchorEl) && stage == old(stage) && filters == old(filters)
    {
      inputValue := newInputValue;
    }

    /** `handleClick`: anchor the popover at the button and open it. */
    method HandleClick(target: string)
      modifies this
      requires Valid()
      ensures Valid()
      ensures anchorEl == Some(target) && open
      ensures inputValue == old(inputValue) && stage == old(stage) && filters == old(filters)
    {
      anchorEl := Some(target);
      open := true;
    }

    /** `handleClose`: closed, unanchored, back to picking a key; the input
        and the filters are untouched. */
    method HandleClose()
      modifies this
      requires Valid()
      ensures Valid()
      ensures anchorEl.None? && !open && stage == SelectKeyStage
      ensures inputValue == old(inputValue) && filters == old(filters)
    {
      anchorEl := None;
      open := false;
      stage := SelectKeyStage;
    }

    /** A chip's `onDelete`: removes that key's filter and no other. */
    method DeleteChip(key: FilterKey)
      modifies this
      requires Valid()
      ensures Valid()
      ensures key !in filters
      ensures forall k :: k != key ==> (k in filters <==> k in old(filters)) && (k in filters ==> filters[k] == old(filters)[k])
      ensures open == old(open) && anchorEl == old(anchorEl) && inputValue == old(inputValue) && stage == old(stage)
    {
      filters := filters - {key};
    }
  }

  // ---------------------------------------------------------------------
  // Scenarios
  // ---------------------------------------------------------------------

  /** Pick `to`, type an address, press Enter, with an empty search box:
      as written the `to` filter holds the empty search text. */
  method TypedAddressAsWritten() returns (stored: Filter)
    ensures stored == ValueFilter("")
  {
    var s := new DeliveriesFilterState();
    s.HandleCommandSelect(Some(SelectKeyCommand("To", To)), None);
    s.OnValueChange("ada@example.com");
    s.OnValueKeyDownAsWritten("Enter");
    stored := s.filters[To];
  }

  /** The same steps storing the typed value. */
  method TypedAddress() returns (stored: Filter)
    ensures stored == ValueFilter("ada@example.com")
  {
    var s := new DeliveriesFilterState();
    s.HandleCommandSelect(Some(SelectKeyCommand("To", To)), None);
    s.OnValueChange("ada@example.com");
    s.OnValueKeyDown("Enter");
    stored := s.filters[To];
  }

  /** As written, "Email Bounced" is offered twice and the second one is
      the EmailDelivered id: picking "Email Delivered" and then the second
      "Email Bounced" leaves one entry, labelled bounced, filtering on
      delivered. */
  lemma DuplicateBouncedItemAsWritten()
    ensures StatusChildrenAsWritten()[1].caption == StatusChildrenAsWritten()[6].caption == "Email Bounced"
    ensures StatusChildrenAsWritten()[6].id == StatusChildrenAsWritten()[5].id == StatusId(EmailDelivered)
    ensures MapSet(MapSet([], StatusChildrenAsWritten()[5].id, StatusChildrenAsWritten()[5].caption),
                   StatusChildrenAsWritten()[6].id, StatusChildrenAsWritten()[6].caption)
            == [(StatusId(EmailDelivered), "Email Bounced")]
  {
    var once := MapSet([], StatusId(EmailDelivered), "Email Delivered");
    assert once == [(StatusId(EmailDelivered), "Email Delivered")];
    assert IndexOfId(once, StatusId(EmailDelivered)) == Some(0);
  }
}
