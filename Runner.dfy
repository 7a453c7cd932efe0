/** The runner's loops: fetching every page of devices (`get_devices`) and
    running one command on every tagged device (`run_command_on_tagged_devices`). */
module Runner {
  import opened Wrappers
  import opened Json
  import opened Devices
  import opened Dispatcher
  import opened CommandString

  // ---------------------------------------------------------------------
  // Pagination

  /** The reply to one GET of the device list: a page with its `items` and
      the URL of its `next` link, either possibly missing; or a failure that
      `raise_for_status` or the transport raises. */
  datatype PageReply = Page(items: Option<seq<Device>>, next: Option<string>) | PageFailed(message: string)

  /** `while url:` goes on after this page: it has a non-empty next link. */
  predicate Continues(p: PageReply) {
    p.Page? && p.next.Some? && p.next.value != []
  }

  /** The server's replies to successive GETs, finitely many: the last one
      does not point to a further page. */
  predicate FiniteServer(pages: seq<PageReply>) {
    |pages| > 0 && !Continues(pages[|pages| - 1])
  }

  /** The index of the last page requested: the first that does not continue. */
  function StopIndex(pages: seq<PageReply>): (k: nat)
    requires FiniteServer(pages)
    ensures k < |pages| && !Continues(pages[k])
    ensures forall j :: 0 <= j < k ==> Continues(pages[j])
  {
    FirstStopFrom(pages, 0)
  }

  function FirstStopFrom(pages: seq<PageReply>, i: nat): (k: nat)
    requires FiniteServer(pages) && i < |pages|
    ensures i <= k < |pages| && !Continues(pages[k])
    ensures forall j :: i <= j < k ==> Continues(pages[j])
    decreases |pages| - i
  {
    if !Continues(pages[i]) then i else FirstStopFrom(pages, i + 1)
  }

  /** `data.get("items", [])` of a page. */
  function PageItems(p: PageReply): seq<Device> {
    if p.Page? then p.items.GetOr([]) else []
  }

  /** The items of `pages`, concatenated in page order. */
  function ItemsOf(pages: seq<PageReply>): seq<Device> {
    if pages == [] then [] else ItemsOf(pages[..|pages| - 1]) + PageItems(pages[|pages| - 1])
  }

  /** What `get_devices` yields: the items of every page up to the first one
      without a next link, or the failure of the first page that failed. */
  function Fetched(pages: seq<PageReply>): Result<seq<Device>, string>
    requires FiniteServer(pages)
  {
    var k := StopIndex(pages);
    if pages[k].PageFailed? then Failure(pages[k].message) else Success(ItemsOf(pages[..k + 1]))
  }

  const DevicesUrl := BaseUrl + "/devices"

  /** `get_devices`: follow next links, extending the list with each page's
      items. `fetched` counts the GETs made. */
  method GetDevices(pages: seq<PageReply>) returns (r: Result<seq<Device>, string>, fetched: nat)
    requires FiniteServer(pages)
    ensures r == Fetched(pages)
    ensures fetched == StopIndex(pages) + 1
  {
    var url := DevicesUrl;
    var devices: seq<Device> := [];
    var i := 0;
    while url != []
      invariant 0 <= i <= |pages|
      invariant forall j :: 0 <= j < i - 1 ==> Continues(pages[j])
      invariant url != [] ==> i < |pages| && (i == 0 || Continues(pages[i - 1]))
      invariant url == [] ==> 0 < i && !Continues(pages[i - 1]) && pages[i - 1].Page?
      invariant devices == ItemsOf(pages[..i])
      decreases |pages| - i
    {
      var reply := pages[i];
      if reply.PageFailed? {
        assert StopIndex(pages) == i;
        return Failure(reply.message), i + 1;
      }
      assert pages[..i + 1][..i] == pages[..i];
      devices := devices + reply.items.GetOr([]);
      url := if reply.next.Some? then reply.next.value else [];
      i := i + 1;
    }
    assert StopIndex(pages) == i - 1;
    r, fetched := Success(devices), i;
  }

  lemma {:induction false} ItemsOfConcat(a: seq<PageReply>, b: seq<PageReply>)
    ensures ItemsOf(a + b) == ItemsOf(a) + ItemsOf(b)
    decreases |b|
  {
    if b == [] {
      assert a + b == a;
    } else {
      var b', last := b[..|b| - 1], b[|b| - 1];
      assert (a + b)[..|a + b| - 1] == a + b' && (a + b)[|a + b| - 1] == last;
      ItemsOfConcat(a, b');
      assert ItemsOf(a + b) == ItemsOf(a) + ItemsOf(b') + PageItems(last);
    }
  }

  /** Pages after the first one without a next link are never requested:
      whatever follows it, the result is the same. */
  lemma FetchedIgnoresLaterPages(pages: seq<PageReply>, more: seq<PageReply>)
    requires FiniteServer(pages) && FiniteServer(pages[..StopIndex(pages) + 1] + more)
    ensures Fetched(pages[..StopIndex(pages) + 1] + more) == Fetched(pages)
  {
    var k := StopIndex(pages);
    var other := pages[..k + 1] + more;
    assert forall j :: 0 <= j <= k ==> other[j] == pages[j];
    assert StopIndex(other) == k;
    assert other[..k + 1] == pages[..k + 1];
  }

  /** Fetching unfolds page by page: the first page's items come first and
      the rest follows only when its next link is present. */
  lemma FetchedUnfolds(pages: seq<PageReply>)
    requires FiniteServer(pages)
    ensures pages[0].PageFailed? ==> Fetched(pages) == Failure(pages[0].message)
    ensures pages[0].Page? && !Continues(pages[0]) ==> Fetched(pages) == Success(PageItems(pages[0]))
    ensures Continues(pages[0]) ==> FiniteServer(pages[1..])
    ensures Continues(pages[0]) ==>
      Fetched(pages) == match Fetched(pages[1..])
                        case Success(rest) => Success(PageItems(pages[0]) + rest)
                        case Failure(m) => Failure(m)
  {
    var k := StopIndex(pages);
    assert ItemsOf([pages[0]]) == PageItems(pages[0]) by {
      assert [pages[0]][..0] == [];
    }
    if k == 0 {
      assert pages[..1] == [pages[0]];
    } else {
      var tail := pages[1..];
      assert forall j :: 0 <= j < k ==> tail[j] == pages[j + 1];
      assert StopIndex(tail) == k - 1;
      assert pages[..k + 1] == [pages[0]] + tail[..k];
      ItemsOfConcat([pages[0]], tail[..k]);
    }
  }

  /** Two pages linked by a next link give the first page's items followed
      by the second's. */
  lemma TwoPagesExample(first: seq<Device>, second: seq<Device>, link: string)
    requires link != []
    ensures FiniteServer([Page(Some(first), Some(link)), Page(Some(second), None)])
    ensures Fetched([Page(Some(first), Some(link)), Page(Some(second), None)]) == Success(first + second)
  {
    var pages := [Page(Some(first), Some(link)), Page(Some(second), None)];
    assert StopIndex(pages) == 1;
    assert pages[..2] == pages;
    assert pages[..2][..1] == [pages[0]];
    assert ItemsOf([pages[0]]) == first by {
      assert [pages[0]][..0] == [];
    }
  }

  // ---------------------------------------------------------------------
  // Per-device outcomes

  /** One element of `successful` or `failed`: the device's display name, its
      id, and the result or the error. */
  datatype Entry = Entry(device: string, deviceId: Option<string>, detail: Json)

  datatype Results = Results(successful: seq<Entry>, failed: seq<Entry>)

  /** Where one device's entry goes. */
  datatype Outcome = Succeeded(entry: Entry) | Failed(entry: Entry)

  /** `"error" in result`, which Python answers per type: a dict key, a list
      element, a substring, or a TypeError for a scalar. */
  function HasErrorKey(j: Json): (r: Result<bool, string>)
    ensures r.Success? <==> j.JObject? || j.JArray? || j.JString?
    ensures j.JObject? ==> (r == Success(true) <==> "error" in j.fields)
    ensures j.JArray? ==> (r == Success(true) <==> exists k :: 0 <= k < |j.items| && j.items[k] == JString("error"))
    ensures j.JString? ==> (r == Success(true) <==> exists k :: OccursAt("error", j.s, k))
  {
    match j
    case JObject(fields) => Success("error" in fields)
    case JArray(items) => Success(JString("error") in items)
    case JString(s) => SubstringOccurs("error", s); Success(IsSubstring("error", s))
    case JNull => Failure("argument of type 'NoneType' is not iterable")
    case JBool(_) => Failure("argument of type 'bool' is not iterable")
    case JInt(_) => Failure("argument of type 'int' is not iterable")
    case JFloat(_, _) => Failure("argument of type 'float' is not iterable")
  }

  predicate IsSubstring(p: string, s: string)
    decreases |s|
  {
    p <= s || (s != [] && IsSubstring(p, s[1..]))
  }

  /** `p` occurs in `s` starting at index `k`. */
  predicate OccursAt(p: string, s: string, k: int) {
    0 <= k && k + |p| <= |s| && s[k..k + |p|] == p
  }

  /** An occurrence in the tail is an occurrence one index later. */
  lemma OccursShift(p: string, s: string, k: nat)
    requires s != []
    ensures OccursAt(p, s[1..], k) <==> OccursAt(p, s, k + 1)
  {
    if k + |p| <= |s| - 1 {
      assert s[1..][k..k + |p|] == s[k + 1..k + 1 + |p|];
    }
  }

  /** The prefix scan finds `p` exactly when it occurs somewhere in `s`. */
  lemma {:induction false} SubstringOccurs(p: string, s: string)
    ensures IsSubstring(p, s) <==> exists k :: OccursAt(p, s, k)
    decreases |s|
  {
    assert OccursAt(p, s, 0) <==> p <= s;
    if !(p <= s) && s != [] {
      SubstringOccurs(p, s[1..]);
      if IsSubstring(p, s[1..]) {
        var k :| OccursAt(p, s[1..], k);
        OccursShift(p, s, k);
      }
      if k :| OccursAt(p, s, k) && k > 0 {
        OccursShift(p, s, k - 1);
      }
    }
  }

  /** `result['error']` in the failure message: only a dict survives it;
      every other value raises a TypeError. */
  function ErrorLookupFailure(j: Json): (r: Option<string>)
    ensures r.None? <==> j.JObject?
    ensures j.JObject? && "error" in j.fields ==> r.None?
  {
    match j
    case JObject(_) => None
    case JArray(_) => Some("list indices must be integers or slices, not str")
    case JString(_) => Some("string indices must be integers, not 'str'")
    case JNull => Some("'NoneType' object is not subscriptable")
    case JBool(_) => Some("'bool' object is not subscriptable")
    case JInt(_) => Some("'int' object is not subscriptable")
    case JFloat(_, _) => Some("'float' object is not subscriptable")
  }

  /** The body of the `try` in the loop of `run_command_on_tagged_devices`
      for one device, given what the dispatch did. Every exception inside
      the `try` becomes a failure carrying its message. */
  function DeviceOutcome(device: Device, d: Dispatch): (o: Outcome)
    ensures o.entry.device == device.displayName.GetOr("Unknown")
    ensures o.entry.deviceId == device.id
    ensures o.Succeeded? <==> d.Returned? && HasErrorKey(d.value) == Success(false)
    ensures o.Succeeded? ==> o.entry.detail == d.value
    ensures d.Raised? ==> o.entry.detail == JString(d.message)
    ensures d.Returned? && HasErrorKey(d.value).Failure? ==> o.Failed? && o.entry.detail == JString(HasErrorKey(d.value).error)
    ensures d.Returned? && HasErrorKey(d.value) == Success(true) && ErrorLookupFailure(d.value).Some? ==>
      o.Failed? && o.entry.detail == JString(ErrorLookupFailure(d.value).value)
    ensures d.Returned? && d.value.JObject? && "error" in d.value.fields ==> o == Failed(Entry(o.entry.device, device.id, d.value))
  {
    var name := device.displayName.GetOr("Unknown");
    match d
    case Raised(m) => Failed(Entry(name, device.id, JString(m)))
    case Returned(j) =>
      match HasErrorKey(j)
      case Failure(m) => Failed(Entry(name, device.id, JString(m)))
      case Success(false) => Succeeded(Entry(name, device.id, j))
      case Success(true) =>
        match ErrorLookupFailure(j)
        case Some(m) => Failed(Entry(name, device.id, JString(m)))
        case None => Failed(Entry(name, device.id, j))
  }

  /** One device's outcome: dispatch, then classify. */
  function OutcomeOf(device: Device, command: string, arguments: Json, loads: JsonLoader, post: Poster): Outcome {
    DeviceOutcome(device, Execute(device.id, command, arguments, loads, post))
  }

  function OutcomesOf(ds: seq<Device>, command: string, arguments: Json, loads: JsonLoader, post: Poster): (os: seq<Outcome>)
    ensures |os| == |ds|
    ensures forall i :: 0 <= i < |ds| ==> os[i] == OutcomeOf(ds[i], command, arguments, loads, post)
  {
    seq(|ds|, i requires 0 <= i < |ds| => OutcomeOf(ds[i], command, arguments, loads, post))
  }

  /** Append one outcome to the list it belongs to. */
  function Record(r: Results, o: Outcome): Results {
    match o
    case Succeeded(e) => r.(successful := r.successful + [e])
    case Failed(e) => r.(failed := r.failed + [e])
  }

  /** The results of a sequence of outcomes, recorded in order. */
  function Partition(os: seq<Outcome>): Results {
    if os == [] then Results([], []) else Record(Partition(os[..|os| - 1]), os[|os| - 1])
  }

  /** Every outcome yields exactly one entry. */
  lemma {:induction false} PartitionCount(os: seq<Outcome>)
    ensures |Partition(os).successful| + |Partition(os).failed| == |os|
    decreases |os|
  {
    if os != [] {
      PartitionCount(os[..|os| - 1]);
    }
  }

  /** Partitioning distributes over concatenation: each list keeps the order
      of the outcomes, and what happens to earlier devices does not change
      the entries of later ones. */
  lemma {:induction false} PartitionConcat(a: seq<Outcome>, b: seq<Outcome>)
    ensures Partition(a + b).successful == Partition(a).successful + Partition(b).successful
    ensures Partition(a + b).failed == Partition(a).failed + Partition(b).failed
    decreases |b|
  {
    if b == [] {
      assert a + b == a;
    } else {
      var b' := b[..|b| - 1];
      assert (a + b)[..|a + b| - 1] == a + b';
      assert (a + b)[|a + b| - 1] == b[|b| - 1];
      PartitionConcat(a, b');
    }
  }

  /** An entry is in `successful` exactly when it came from a success, and
      in `failed` exactly when it came from a failure. */
  lemma {:induction false} PartitionMembers(os: seq<Outcome>, e: Entry)
    ensures e in Partition(os).successful <==> Succeeded(e) in os
    ensures e in Partition(os).failed <==> Failed(e) in os
    decreases |os|
  {
    if os != [] {
      var init := os[..|os| - 1];
      assert os == init + [os[|os| - 1]];
      PartitionMembers(init, e);
    }
  }

  function EntryIds(es: seq<Entry>): (ids: seq<Option<string>>)
    ensures |ids| == |es|
    ensures forall i :: 0 <= i < |es| ==> ids[i] == es[i].deviceId
  {
    seq(|es|, i requires 0 <= i < |es| => es[i].deviceId)
  }

  function DeviceIds(ds: seq<Device>): (ids: seq<Option<string>>)
    ensures |ids| == |ds|
    ensures forall i :: 0 <= i < |ds| ==> ids[i] == ds[i].id
  {
    seq(|ds|, i requires 0 <= i < |ds| => ds[i].id)
  }

  /** The entries of a sequence of outcomes, in order. */
  function EntriesOf(os: seq<Outcome>): (es: seq<Entry>)
    ensures |es| == |os|
    ensures forall i :: 0 <= i < |os| ==> es[i] == os[i].entry
  {
    seq(|os|, i requires 0 <= i < |os| => os[i].entry)
  }

  /** Between them, `successful` and `failed` hold the ids of all the
      outcomes' entries, each as often as it occurs. */
  lemma {:induction false} PartitionIds(os: seq<Outcome>)
    ensures multiset(EntryIds(Partition(os).successful)) + multiset(EntryIds(Partition(os).failed))
         == multiset(EntryIds(EntriesOf(os)))
    decreases |os|
  {
    if os != [] {
      var init, o := os[..|os| - 1], os[|os| - 1];
      PartitionIds(init);
      var r0 := Partition(init);
      assert EntryIds(EntriesOf(os)) == EntryIds(EntriesOf(init)) + [o.entry.deviceId];
      match o {
        case Succeeded(e) =>
          assert EntryIds(r0.successful + [e]) == EntryIds(r0.successful) + [e.deviceId];
        case Failed(e) =>
          assert EntryIds(r0.failed + [e]) == EntryIds(r0.failed) + [e.deviceId];
      }
    }
  }

  /** Every dispatched device appears exactly once across `successful` and
      `failed`: the ids of the two lists together are the devices' ids, with
      the same multiplicities. */
  lemma EveryDeviceOnce(ds: seq<Device>, command: string, arguments: Json, loads: JsonLoader, post: Poster)
    ensures var r := Partition(OutcomesOf(ds, command, arguments, loads, post));
      multiset(EntryIds(r.successful)) + multiset(EntryIds(r.failed)) == multiset(DeviceIds(ds))
  {
    var os := OutcomesOf(ds, command, arguments, loads, post);
    PartitionIds(os);
    assert EntryIds(EntriesOf(os)) == DeviceIds(ds);
  }

  /** One more device adds its outcome to the results so far. */
  lemma OutcomesStep(ds: seq<Device>, i: nat, command: string, arguments: Json, loads: JsonLoader, post: Poster)
    requires i < |ds|
    ensures Partition(OutcomesOf(ds[..i + 1], command, arguments, loads, post))
         == Record(Partition(OutcomesOf(ds[..i], command, arguments, loads, post)),
                   OutcomeOf(ds[i], command, arguments, loads, post))
  {
    var os := OutcomesOf(ds[..i + 1], command, arguments, loads, post);
    assert os[..i] == OutcomesOf(ds[..i], command, arguments, loads, post);
  }

  /** Everything in `successful` passed the `"error" in result` test. */
  lemma SuccessesHaveNoError(ds: seq<Device>, command: string, arguments: Json, loads: JsonLoader, post: Poster, e: Entry)
    requires e in Partition(OutcomesOf(ds, command, arguments, loads, post)).successful
    ensures HasErrorKey(e.detail) == Success(false)
  {
    var os := OutcomesOf(ds, command, arguments, loads, post);
    PartitionMembers(os, e);
    var i :| 0 <= i < |os| && os[i] == Succeeded(e);
  }

  /** A device whose command gets a non-200 status always lands in `failed`,
      carrying the failure value with that status. */
  lemma NonOkStatusFails(device: Device, command: string, arguments: Json, loads: JsonLoader, post: Poster)
    requires var reply := post(CommandRequest(device.id, command, arguments, loads));
      reply.Response? && reply.status != 200
    ensures var reply := post(CommandRequest(device.id, command, arguments, loads));
      OutcomeOf(device, command, arguments, loads, post)
        == Failed(Entry(device.displayName.GetOr("Unknown"), device.id, FailureObject(reply.status, reply.text)))
  {
    var reply := post(CommandRequest(device.id, command, arguments, loads));
    FailureObjectCarriesStatus(reply.status, reply.text);
  }

  /** A transport exception for one device becomes a failure carrying its
      message. */
  lemma ConnectionFailureFails(device: Device, command: string, arguments: Json, loads: JsonLoader, post: Poster)
    requires post(CommandRequest(device.id, command, arguments, loads)).ConnectionFailed?
    ensures OutcomeOf(device, command, arguments, loads, post)
         == Failed(Entry(device.displayName.GetOr("Unknown"), device.id,
                         JString(post(CommandRequest(device.id, command, arguments, loads)).message)))
  {
  }

  /** A failing device does not stop the others: the results for a list of
      devices are the results for any split of it, joined. */
  lemma FailureIsolation(a: seq<Device>, b: seq<Device>, command: string, arguments: Json, loads: JsonLoader, post: Poster)
    ensures var all := Partition(OutcomesOf(a + b, command, arguments, loads, post));
            var left := Partition(OutcomesOf(a, command, arguments, loads, post));
            var right := Partition(OutcomesOf(b, command, arguments, loads, post));
      all.successful == left.successful + right.successful && all.failed == left.failed + right.failed
  {
    var os := OutcomesOf(a + b, command, arguments, loads, post);
    assert os == OutcomesOf(a, command, arguments, loads, post) + OutcomesOf(b, command, arguments, loads, post);
    PartitionConcat(OutcomesOf(a, command, arguments, loads, post), OutcomesOf(b, command, arguments, loads, post));
  }

  // ---------------------------------------------------------------------
  // Orchestration

  /** The requests posted for a list of devices, one per device, in order. */
  function RequestsFor(ds: seq<Device>, command: string, arguments: Json, loads: JsonLoader): seq<Request> {
    seq(|ds|, k requires 0 <= k < |ds| => CommandRequest(ds[k].id, command, arguments, loads))
  }

  lemma RequestsStep(ds: seq<Device>, i: nat, command: string, arguments: Json, loads: JsonLoader)
    requires i < |ds|
    ensures RequestsFor(ds[..i + 1], command, arguments, loads)
         == RequestsFor(ds[..i], command, arguments, loads) + [CommandRequest(ds[i].id, command, arguments, loads)]
  {
  }

  /** One pass of the loop of `run_command_on_tagged_devices`: dispatch to
      one device and append its entry to `successful` or `failed`. */
  method DispatchOne(results: Results, device: Device, command: string, arguments: Json, loads: JsonLoader, post: Poster)
    returns (next: Results, request: Request)
    ensures next == Record(results, OutcomeOf(device, command, arguments, loads, post))
    ensures request == CommandRequest(device.id, command, arguments, loads)
  {
    var d;
    d, request := ExecuteCommand(device.id, command, arguments, loads, post);
    match DeviceOutcome(device, d) {
      case Succeeded(e) => next := results.(successful := results.successful + [e]);
      case Failed(e) => next := results.(failed := results.failed + [e]);
    }
  }

  /** The loop of `run_command_on_tagged_devices`: dispatch to each device
      once, in order, and append its entry to `successful` or `failed`.
      `sent` lists the POSTs made. */
  method DispatchAll(filtered: seq<Device>, command: string, arguments: Json, loads: JsonLoader, post: Poster)
    returns (results: Results, sent: seq<Request>)
    ensures results == Partition(OutcomesOf(filtered, command, arguments, loads, post))
    ensures |sent| == |filtered|
    ensures forall k :: 0 <= k < |filtered| ==>
              sent[k] == CommandRequest(filtered[k].id, command, arguments, loads)
  {
    results := Results([], []);
    sent := [];
    for i := 0 to |filtered|
      invariant results == Partition(OutcomesOf(filtered[..i], command, arguments, loads, post))
      invariant sent == RequestsFor(filtered[..i], command, arguments, loads)
    {
      var request;
      OutcomesStep(filtered, i, command, arguments, loads, post);
      RequestsStep(filtered, i, command, arguments, loads);
      results, request := DispatchOne(results, filtered[i], command, arguments, loads, post);
      sent := sent + [request];
    }
    assert filtered[..|filtered|] == filtered;
  }

  /** `run_command_on_tagged_devices`: fetch, filter, and unless nothing
      matched, dispatch to each matching device. A fetch failure escapes.
      `sent` lists the POSTs made. */
  method RunCommandOnTaggedDevices(pages: seq<PageReply>, tag: string, command: string, arguments: Json,
                                   loads: JsonLoader, post: Poster)
    returns (r: Result<Results, string>, sent: seq<Request>)
    requires FiniteServer(pages)
    ensures Fetched(pages).Failure? ==> r == Failure(Fetched(pages).error) && sent == []
    ensures Fetched(pages).Success? && Tagged(Fetched(pages).value, tag) == [] ==>
              r == Success(Results([], [])) && sent == []
    ensures Fetched(pages).Success? ==>
              var filtered := Tagged(Fetched(pages).value, tag);
              && r == Success(Partition(OutcomesOf(filtered, command, arguments, loads, post)))
              && |sent| == |filtered|
              && forall k :: 0 <= k < |filtered| ==>
                   sent[k] == CommandRequest(filtered[k].id, command, arguments, loads)
  {
    var devices, _ := GetDevices(pages);
    if devices.Failure? {
      return Failure(devices.error), [];
    }
    var filtered := FilterDevicesByTag(devices.value, tag);
    if filtered == [] {
      return Success(Results([], [])), [];
    }
    var results;
    results, sent := DispatchAll(filtered, command, arguments, loads, post);
    r := Success(results);
  }

  // ---------------------------------------------------------------------
  // From the command line to the payload

  /** `command_args if command_args else None`, the arguments `main` passes on. */
  function CommandArguments(arguments: Option<string>): (r: Json)
    ensures Truthy(r) <==> arguments.Some? && arguments.value != ""
    ensures Truthy(r) ==> r == JString(arguments.value)
    ensures !Truthy(r) ==> r == JNull
  {
    match arguments
    case Some(a) => if a != [] then JString(a) else JNull
    case None => JNull
  }

  /** The argument text that the parser keeps raw reaches the payload: the
      payload has `arguments` exactly when the command string had any, and
      then carries its JSON parse or, failing that, the raw text. */
  lemma ParsedArgumentsReachPayload(commandString: string, loads: JsonLoader, deviceId: Option<string>)
    requires ParseCommand(commandString, loads).Success?
    ensures var p := ParseCommand(commandString, loads).value;
            var body := Payload(deviceId, CommandArguments(p.arguments), loads);
      && ("arguments" in body <==> p.arguments.Some?)
      && (p.arguments.Some? && loads(p.arguments.value).Success? ==>
            body["arguments"] == loads(p.arguments.value).value)
      && (p.arguments.Some? && loads(p.arguments.value).Failure? ==>
            p.warned && body["arguments"] == JString(p.arguments.value))
  {
  }
}
