/** Device records and the tag filter (`filter_devices_by_tag`). */
module Devices {
  import opened Wrappers

  /** A device record from the devices endpoint, reduced to the fields the
      runner reads; a field missing from the record is None. */
  datatype Device = Device(id: Option<string>, displayName: Option<string>, tags: Option<seq<string>>)

  /** `tag in device.get("tags", [])`: exact, case-sensitive string equality,
      and a record without a tags field has no tags. */
  predicate HasTag(d: Device, tag: string) {
    tag in d.tags.GetOr([])
  }

  /** The devices of `ds` that carry `tag`, in input order. */
  function Tagged(ds: seq<Device>, tag: string): seq<Device>
  {
    if ds == [] then []
    else
      var last := ds[|ds| - 1];
      Tagged(ds[..|ds| - 1], tag) + (if HasTag(last, tag) then [last] else [])
  }

  /** The loop of `filter_devices_by_tag`: append each matching device. */
  method FilterDevicesByTag(devices: seq<Device>, tag: string) returns (filtered: seq<Device>)
    ensures filtered == Tagged(devices, tag)
  {
    filtered := [];
    for i := 0 to |devices|
      invariant filtered == Tagged(devices[..i], tag)
    {
      assert devices[..i + 1][..i] == devices[..i];
      var device := devices[i];
      if HasTag(device, tag) {
        filtered := filtered + [device];
      }
    }
    assert devices[..|devices|] == devices;
  }

  /** Filtering commutes with concatenation: the relative order of the
      selected devices is their order in the input. */
  lemma {:induction false} TaggedConcat(a: seq<Device>, b: seq<Device>, tag: string)
    ensures Tagged(a + b, tag) == Tagged(a, tag) + Tagged(b, tag)
    decreases |b|
  {
    if b == [] {
      assert a + b == a;
    } else {
      var b' := b[..|b| - 1];
      assert (a + b)[..|a + b| - 1] == a + b';
      assert (a + b)[|a + b| - 1] == b[|b| - 1];
      TaggedConcat(a, b', tag);
    }
  }

  /** Each tagged device occurs in the result exactly as often as in the
      input, and every other device not at all. */
  lemma {:induction false} TaggedMultiplicity(ds: seq<Device>, tag: string, d: Device)
    ensures multiset(Tagged(ds, tag))[d] == if HasTag(d, tag) then multiset(ds)[d] else 0
    decreases |ds|
  {
    if ds != [] {
      var init, last := ds[..|ds| - 1], ds[|ds| - 1];
      assert ds == init + [last];
      TaggedMultiplicity(init, tag, d);
    }
  }

  /** A device is selected if and only if it is in the input and has the
      tag; in particular a device with no tags field is never selected. */
  lemma TaggedMembership(ds: seq<Device>, tag: string, d: Device)
    ensures d in Tagged(ds, tag) <==> d in ds && HasTag(d, tag)
    ensures d.tags.None? ==> d !in Tagged(ds, tag)
  {
    TaggedMultiplicity(ds, tag, d);
    assert d in Tagged(ds, tag) <==> multiset(Tagged(ds, tag))[d] > 0;
    assert d in ds <==> multiset(ds)[d] > 0;
  }

  /** Filtering an already filtered list changes nothing. */
  lemma {:induction false} TaggedIdempotent(ds: seq<Device>, tag: string)
    ensures Tagged(Tagged(ds, tag), tag) == Tagged(ds, tag)
    decreases |ds|
  {
    if ds != [] {
      var init, last := ds[..|ds| - 1], ds[|ds| - 1];
      TaggedIdempotent(init, tag);
      var keep := if HasTag(last, tag) then [last] else [];
      TaggedConcat(Tagged(init, tag), keep, tag);
      if HasTag(last, tag) {
        assert Tagged(keep, tag) == Tagged([], tag) + [last];
      }
    }
  }
}
