/** The required-device-extension check: every name in the required list must
    be matched by some extension the device reports. */
module DeviceExtensions {
  import opened VkTypes

  /** A C character buffer: where it is stored, and the characters before its
      NUL terminator. Two buffers with equal text may live at different places. */
  datatype CString = CString(storage: nat, text: string)

  /** `VkExtensionProperties`: the name is a `char[256]` inside the record. */
  datatype ExtensionProperties = ExtensionProperties(extensionName: CString, specVersion: uint32)

  /** Where the string literal `VK_KHR_SWAPCHAIN_EXTENSION_NAME` is stored. */
  const SwapchainNameStorage: nat := 0

  const SwapchainExtensionName := CString(SwapchainNameStorage, "VK_KHR_swapchain")

  /** `device_extensions`: the one extension the program requires. */
  const RequiredDeviceExtensions: seq<CString> := [SwapchainExtensionName]

  /** Some available extension is matched to `name` by `matches` (`std::ranges::find`). */
  function Offers(available: seq<ExtensionProperties>, name: CString,
                  matches: (ExtensionProperties, CString) -> bool): (r: bool)
    ensures r <==> exists j :: 0 <= j < |available| && matches(available[j], name)
  {
    if |available| == 0 then false
    else matches(available[0], name) || Offers(available[1..], name, matches)
  }

  /** Every required name is offered (`std::ranges::all_of`). */
  function SupportsAll(available: seq<ExtensionProperties>, required: seq<CString>,
                       matches: (ExtensionProperties, CString) -> bool): (r: bool)
    ensures r <==> forall i :: 0 <= i < |required| ==> Offers(available, required[i], matches)
  {
    if |required| == 0 then true
    else Offers(available, required[0], matches) && SupportsAll(available, required[1..], matches)
  }

  /** Reporting more extensions never turns support into lack of support. */
  lemma SupportsAllMonotone(available: seq<ExtensionProperties>, more: seq<ExtensionProperties>,
                            required: seq<CString>, matches: (ExtensionProperties, CString) -> bool)
    requires forall e :: e in available ==> e in more
    ensures SupportsAll(available, required, matches) ==> SupportsAll(more, required, matches)
  {
    if SupportsAll(available, required, matches) {
      forall i | 0 <= i < |required| ensures Offers(more, required[i], matches) {
        var j :| 0 <= j < |available| && matches(available[j], required[i]);
        assert available[j] in more;
      }
    }
  }

  /** The order in which the device reports its extensions does not matter. */
  lemma SupportsAllIgnoresOrder(available: seq<ExtensionProperties>, reordered: seq<ExtensionProperties>,
                                required: seq<CString>, matches: (ExtensionProperties, CString) -> bool)
    requires multiset(available) == multiset(reordered)
    ensures SupportsAll(available, required, matches) == SupportsAll(reordered, required, matches)
  {
    forall e | e in available ensures e in reordered {
      assert e in multiset(reordered);
    }
    forall e | e in reordered ensures e in available {
      assert e in multiset(available);
    }
    SupportsAllMonotone(available, reordered, required, matches);
    SupportsAllMonotone(reordered, available, required, matches);
  }

  /** The match the source performs: the projected `char[256]` decays to a
      pointer and is compared with the required `const char*` as an address. */
  predicate SameStorage(e: ExtensionProperties, name: CString)
  {
    e.extensionName.storage == name.storage
  }

  /** The match evidently intended: equal names, compared as `strncmp(…, 256)`
      does (the way the validation-layer check compares names). */
  predicate SameText(e: ExtensionProperties, name: CString)
  {
    StrnEqual(e.extensionName.text, name.text, 256)
  }

  /** `support_extensions` as written. */
  function SupportExtensionsAsWritten(available: seq<ExtensionProperties>): (r: bool)
    ensures r <==> exists j :: 0 <= j < |available| && available[j].extensionName.storage == SwapchainNameStorage
  {
    SupportsAll(available, RequiredDeviceExtensions, SameStorage)
  }

  /** The names the device reports are stored in the program's own vector, never
      where the string literal lives; so the as-written check fails on every
      device, however its extensions are named. */
  lemma AsWrittenNeverSupported(available: seq<ExtensionProperties>)
    requires forall j :: 0 <= j < |available| ==> available[j].extensionName.storage != SwapchainNameStorage
    ensures !SupportExtensionsAsWritten(available)
  {
    assert !Offers(available, SwapchainExtensionName, SameStorage);
  }

  /** A device that reports exactly the swapchain extension: rejected as written,
      accepted by the corrected check. */
  lemma AsWrittenRejectsSwapchainDevice()
    ensures var available := [ExtensionProperties(CString(1, "VK_KHR_swapchain"), 70)];
      !SupportExtensionsAsWritten(available) && SupportExtensions(available)
  {
    var available := [ExtensionProperties(CString(1, "VK_KHR_swapchain"), 70)];
    AsWrittenNeverSupported(available);
    assert SameText(available[0], SwapchainExtensionName);
  }

  /** `support_extensions` with the name comparison corrected: true exactly
      when the device reports an extension named `VK_KHR_swapchain`. */
  function SupportExtensions(available: seq<ExtensionProperties>): (r: bool)
    ensures r <==> exists j :: 0 <= j < |available| && available[j].extensionName.text == "VK_KHR_swapchain"
  {
    forall j | 0 <= j < |available| {
      StrnEqualShort(available[j].extensionName.text, "VK_KHR_swapchain", 256);
    }
    SupportsAll(available, RequiredDeviceExtensions, SameText)
  }
}
