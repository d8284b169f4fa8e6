/** Instance and physical-device setup decisions: the required instance
    extensions and layers, the debug-messenger guard, and the choice of
    physical device by suitability filter and score. */
module DeviceSelection {
  import opened Outcomes
  import opened Vk
  import Search
  import Queues

  // ---------------------------------------------------------------------
  // Instance extensions and layers
  // ---------------------------------------------------------------------

  const ENUMERATE_EXTENSIONS_FAILED := "Failed to enumerate instance extension properties"
  const GLFW_EXTENSION_MISSING := "Required glfw extension not supported!\n"
  const ENUMERATE_LAYERS_FAILED := "Could not fetch available vk layers"
  const LAYER_MISSING := "One or more required layer is not supported!"

  /** `get_required_extensions`: `available` is the instance's extension
      enumeration, `glfwRequired` what GLFW asks for, `validation` is
      `enableValidationLayers`. */
  function GetRequiredExtensions(available: Queried<seq<string>>, glfwRequired: seq<string>, validation: bool)
    : (r: Result<seq<string>>)
    ensures !available.result.HasValue() ==> r == Err(VkError(ENUMERATE_EXTENSIONS_FAILED, available.result.Name()))
    ensures available.result.HasValue() ==>
              (r.Ok? <==> forall i :: 0 <= i < |glfwRequired| ==> glfwRequired[i] in available.value)
    ensures r.Err? && available.result.HasValue() ==> r.error == RuntimeError(GLFW_EXTENSION_MISSING)
    ensures r.Ok? ==> |r.value| == |glfwRequired| + (if validation then 1 else 0)
    ensures r.Ok? ==> r.value[..|glfwRequired|] == glfwRequired
    ensures r.Ok? && validation ==> r.value[|glfwRequired|] == DEBUG_UTILS_EXTENSION
    ensures r.Ok? ==> forall e :: e in r.value ==> e in available.value || (validation && e == DEBUG_UTILS_EXTENSION)
  {
    if !available.result.HasValue() then
      Err(VkError(ENUMERATE_EXTENSIONS_FAILED, available.result.Name()))
    else if !Search.AllAvailable(glfwRequired, available.value) then
      Err(RuntimeError(GLFW_EXTENSION_MISSING))
    else
      var required := glfwRequired + if validation then [DEBUG_UTILS_EXTENSION] else [];
      assert required[..|glfwRequired|] == glfwRequired;
      Ok(required)
  }

  /** `get_required_layers`: the validation layers when validation is on,
      none otherwise, each of which must be available. */
  function GetRequiredLayers(available: Queried<seq<string>>, validationLayers: seq<string>, validation: bool)
    : (r: Result<seq<string>>)
    ensures !available.result.HasValue() ==> r == Err(VkError(ENUMERATE_LAYERS_FAILED, available.result.Name()))
    ensures r.Ok? ==> r.value == if validation then validationLayers else []
    ensures r.Ok? ==> forall l :: l in r.value ==> l in available.value
    ensures available.result.HasValue() && (!validation || forall l :: l in validationLayers ==> l in available.value) ==>
              r.Ok?
    ensures r.Err? && available.result.HasValue() ==> r.error == RuntimeError(LAYER_MISSING)
  {
    var required := if validation then validationLayers else [];
    if !available.result.HasValue() then
      Err(VkError(ENUMERATE_LAYERS_FAILED, available.result.Name()))
    else if !Search.AllAvailable(required, available.value) then
      Err(RuntimeError(LAYER_MISSING))
    else
      Ok(required)
  }

  const DEBUG_MESSENGER_FAILED := "Failed to create DebugMessenger"

  /** `setup_debug_messenger`: `Ok(true)` when a messenger was created,
      `Ok(false)` when the function returned at once. */
  function SetupDebugMessenger(validation: bool, created: VkResult): (r: Result<bool>)
    ensures !validation ==> r == Ok(false)
    ensures r == Ok(true) <==> validation && created.HasValue()
    ensures r.Err? <==> validation && !created.HasValue()
    ensures r.Err? ==> r.error == VkError(DEBUG_MESSENGER_FAILED, created.Name())
  {
    if !validation then Ok(false)
    else if !created.HasValue() then Err(VkError(DEBUG_MESSENGER_FAILED, created.Name()))
    else Ok(true)
  }

  // ---------------------------------------------------------------------
  // Physical device selection
  // ---------------------------------------------------------------------

  /** What `pick_physical_device` reads from one `vk::raii::PhysicalDevice`:
      properties, features, queue families and its extension enumeration. */
  datatype PhysicalDevice = PhysicalDevice(
    apiVersion: nat,
    discrete: bool,
    maxImageDimension2D: u32,
    geometryShader: bool,
    samplerAnisotropy: bool,
    queueFamilies: seq<Queues.QueueFamily>,
    extensions: Queried<seq<string>>)

  const ENUMERATE_DEVICES_FAILED := "Failed to request available physical devices"
  const NO_VULKAN_GPU := "Failed to find GPU with Vulkan Support"
  const DEVICE_EXTENSIONS_FAILED := "Failed to query device for extensions"
  const NO_SUITABLE_GPU := "Failed to find suitable GPU"
  const EMPTY_CANDIDATES := "rbegin() of an empty candidate multimap dereferenced"

  /** The suitability filter: geometry shaders and anisotropic sampling,
      API version 1.3 or later, every required device extension, and a
      graphics queue family. */
  predicate Suitable(d: PhysicalDevice, requiredExtensions: seq<string>) {
    && d.extensions.result.HasValue()
    && d.geometryShader && d.samplerAnisotropy
    && d.apiVersion >= API_VERSION_1_3
    && Search.AllAvailable(requiredExtensions, d.extensions.value)
    && Queues.FirstGraphics(d.queueFamilies).Some?
  }

  /** The filter as a function value, for the candidate bookkeeping. */
  function Suitability(requiredExtensions: seq<string>): PhysicalDevice -> bool {
    d => Suitable(d, requiredExtensions)
  }

  /** The `uint32_t` score: 1000 for a discrete GPU plus the largest 2D
      image dimension, wrapping modulo 2^32. */
  function Score(d: PhysicalDevice): (s: u32)
    ensures (if d.discrete then 1000 else 0) + d.maxImageDimension2D <= UINT32_MAX ==>
              s == (if d.discrete then 1000 else 0) + d.maxImageDimension2D
  {
    U32((if d.discrete then 1000 else 0) + d.maxImageDimension2D)
  }

  /** The `int` key the score becomes when inserted into `std::multimap<int, …>`. */
  function Key(d: PhysicalDevice): int {
    ToInt32(Score(d))
  }

  /** One multimap entry: the key and the device inserted under it. */
  datatype Candidate = Candidate(key: int, device: PhysicalDevice)

  /** The multimap's entries in insertion order once the devices of `ds`
      were visited: those `keep` accepts, under the key `key` gives them. */
  function Survivors(ds: seq<PhysicalDevice>, keep: PhysicalDevice -> bool, key: PhysicalDevice -> int)
    : (s: seq<Candidate>)
    ensures forall c :: c in s ==> c.device in ds && keep(c.device) && c.key == key(c.device)
    ensures forall d :: d in ds && keep(d) ==> Candidate(key(d), d) in s
  {
    if |ds| == 0 then []
    else
      var last := |ds| - 1;
      assert ds == ds[..last] + [ds[last]];
      var front := Survivors(ds[..last], keep, key);
      if keep(ds[last]) then front + [Candidate(key(ds[last]), ds[last])] else front
  }

  /** Visiting one more device inserts at most that device. */
  lemma SurvivorsSnoc(ds: seq<PhysicalDevice>, i: nat, keep: PhysicalDevice -> bool, key: PhysicalDevice -> int)
    requires i < |ds|
    ensures Survivors(ds[..i + 1], keep, key)
            == Survivors(ds[..i], keep, key) + if keep(ds[i]) then [Candidate(key(ds[i]), ds[i])] else []
  {
    assert ds[..i + 1][..i] == ds[..i];
  }

  /** The entry `rbegin()` designates: a greatest key, and among equal keys
      the one inserted last. */
  function Greatest(cs: seq<Candidate>): (p: nat)
    requires |cs| > 0
    ensures p < |cs|
    ensures forall q :: 0 <= q < |cs| ==> cs[q].key <= cs[p].key
    ensures forall q :: p < q < |cs| ==> cs[q].key < cs[p].key
  {
    if |cs| == 1 then 0
    else
      var p := Greatest(cs[..|cs| - 1]);
      assert forall q :: 0 <= q < |cs| - 1 ==> cs[..|cs| - 1][q] == cs[q];
      if cs[|cs| - 1].key >= cs[p].key then |cs| - 1 else p
  }

  /** `d` is enumerated at some position after which no suitable device
      has a key as large as `d`'s. */
  ghost predicate LastWithGreatestKey(ds: seq<PhysicalDevice>, requiredExtensions: seq<string>, d: PhysicalDevice) {
    exists i :: 0 <= i < |ds| && ds[i] == d &&
      forall j :: i < j < |ds| && Suitable(ds[j], requiredExtensions) ==> Key(ds[j]) < Key(d)
  }

  /** Entry `p` of the multimap comes from some position of `ds`, and every
      device `keep` accepts after that position is a later entry. */
  lemma {:induction false} SurvivorsOrder(ds: seq<PhysicalDevice>, keep: PhysicalDevice -> bool,
                                          key: PhysicalDevice -> int, p: nat)
    requires p < |Survivors(ds, keep, key)|
    ensures var cs := Survivors(ds, keep, key);
      exists i :: 0 <= i < |ds| && ds[i] == cs[p].device &&
        forall j :: i < j < |ds| && keep(ds[j]) ==>
          exists q :: p < q < |cs| && cs[q] == Candidate(key(ds[j]), ds[j])
    decreases |ds|
  {
    var cs := Survivors(ds, keep, key);
    var last := |ds| - 1;
    var init := ds[..last];
    var front := Survivors(init, keep, key);
    var tail := if keep(ds[last]) then [Candidate(key(ds[last]), ds[last])] else [];
    assert ds[..last + 1] == ds;
    SurvivorsSnoc(ds, last, keep, key);
    assert cs == front + tail;
    if p == |front| {
      assert cs[p] == Candidate(key(ds[last]), ds[last]);
      assert ds[last] == cs[p].device;
    } else {
      SurvivorsOrder(init, keep, key, p);
      var i :| 0 <= i < |init| && init[i] == front[p].device &&
        forall j :: i < j < |init| && keep(init[j]) ==>
          exists q :: p < q < |front| && front[q] == Candidate(key(init[j]), init[j]);
      LaterEntries(ds, init, keep, key, front, tail, p, i);
      assert ds[i] == cs[p].device;
    }
  }

  /** The inductive step of `SurvivorsOrder`: entries of the survivors of
      `ds` without its last device stay entries once it is visited. */
  lemma LaterEntries(ds: seq<PhysicalDevice>, init: seq<PhysicalDevice>, keep: PhysicalDevice -> bool,
                     key: PhysicalDevice -> int, front: seq<Candidate>, tail: seq<Candidate>, p: nat, i: nat)
    requires |ds| > 0 && init == ds[..|ds| - 1] && p < |front| && i < |init|
    requires tail == if keep(ds[|ds| - 1]) then [Candidate(key(ds[|ds| - 1]), ds[|ds| - 1])] else []
    requires forall j :: i < j < |init| && keep(init[j]) ==>
               exists q :: p < q < |front| && front[q] == Candidate(key(init[j]), init[j])
    ensures forall j :: i < j < |ds| && keep(ds[j]) ==>
              exists q :: p < q < |front + tail| && (front + tail)[q] == Candidate(key(ds[j]), ds[j])
  {
    var cs := front + tail;
    forall j | i < j < |ds| && keep(ds[j])
      ensures exists q :: p < q < |cs| && cs[q] == Candidate(key(ds[j]), ds[j])
    {
      if j == |ds| - 1 {
        assert cs[|cs| - 1] == Candidate(key(ds[j]), ds[j]);
      } else {
        assert init[j] == ds[j];
        var q :| p < q < |front| && front[q] == Candidate(key(ds[j]), ds[j]);
        assert cs[q] == front[q];
      }
    }
  }

  /** `pick_physical_device`: `devices` is the instance's enumeration,
      `requiredExtensions` is `requiredDeviceExtensions`. */
  method PickPhysicalDevice(devices: Queried<seq<PhysicalDevice>>, requiredExtensions: seq<string>)
    returns (r: Result<PhysicalDevice>)
    ensures !devices.result.HasValue() ==> r == Err(VkError(ENUMERATE_DEVICES_FAILED, devices.result.Name()))
    ensures devices.result.HasValue() && |devices.value| == 0 ==> r == Err(RuntimeError(NO_VULKAN_GPU))
    // an extension query that fails raises, whether or not that device would have been kept
    ensures r.Err? && r.error.VkError? && r.error.msg == DEVICE_EXTENSIONS_FAILED ==>
              exists d :: d in devices.value && !d.extensions.result.HasValue()
                && r.error.code == d.extensions.result.Name()
    // no survivor: the source dereferences `rbegin()` of an empty multimap
    ensures r.Err? && r.error.Undefined? ==>
              forall d :: d in devices.value ==> !Suitable(d, requiredExtensions)
    ensures devices.result.HasValue() && |devices.value| > 0 &&
            (forall d :: d in devices.value ==> !Suitable(d, requiredExtensions)) ==>
              r.Err? && (r.error.Undefined? || r.error.msg == DEVICE_EXTENSIONS_FAILED)
    // the device picked: a survivor whose positive key no other survivor exceeds
    ensures r.Ok? ==> r.value in devices.value && Suitable(r.value, requiredExtensions) && Key(r.value) > 0
    ensures r.Ok? ==> forall d :: d in devices.value && Suitable(d, requiredExtensions) ==> Key(d) <= Key(r.value)
    ensures r == Err(RuntimeError(NO_SUITABLE_GPU)) ==>
              (exists d :: d in devices.value && Suitable(d, requiredExtensions))
              && forall d :: d in devices.value && Suitable(d, requiredExtensions) ==> Key(d) <= 0
    // among devices with the greatest key, the one enumerated last wins, as `rbegin()` gives
    ensures r.Ok? ==> LastWithGreatestKey(devices.value, requiredExtensions, r.value)
    // nothing else raises: with every query answering and a suitable device
    // of positive key, a device is picked
    ensures r.Err? ==> r.error in {RuntimeError(NO_VULKAN_GPU), RuntimeError(NO_SUITABLE_GPU), Error.Undefined(EMPTY_CANDIDATES)}
                       || (r.error.VkError? && r.error.msg in {ENUMERATE_DEVICES_FAILED, DEVICE_EXTENSIONS_FAILED})
    ensures (&& devices.result.HasValue()
             && (forall d :: d in devices.value ==> d.extensions.result.HasValue())
             && (exists d :: d in devices.value && Suitable(d, requiredExtensions) && Key(d) > 0))
            ==> r.Ok?
  {
    if !devices.result.HasValue() {
      return Err(VkError(ENUMERATE_DEVICES_FAILED, devices.result.Name()));
    }
    var ds := devices.value;
    if |ds| == 0 {
      return Err(RuntimeError(NO_VULKAN_GPU));
    }
    var inserted := InsertCandidates(ds, requiredExtensions);
    if inserted.Err? {
      return Err(inserted.error);
    }
    r := SelectCandidate(ds, requiredExtensions, inserted.value);
  }

  /** The loop of `pick_physical_device`: every device's extensions are
      queried in order, the first failing query raises, and each suitable
      device is inserted under its key. */
  method InsertCandidates(ds: seq<PhysicalDevice>, requiredExtensions: seq<string>)
    returns (r: Result<seq<Candidate>>)
    ensures r.Ok? ==> r.value == Survivors(ds, Suitability(requiredExtensions), Key)
    ensures r.Err? ==>
              exists k ::
                && 0 <= k < |ds| && !ds[k].extensions.result.HasValue()
                && r.error == VkError(DEVICE_EXTENSIONS_FAILED, ds[k].extensions.result.Name())
                && forall j :: 0 <= j < k ==> ds[j].extensions.result.HasValue()
  {
    var candidates: seq<Candidate> := [];
    var i := 0;
    while i < |ds|
      invariant 0 <= i <= |ds|
      invariant forall k :: 0 <= k < i ==> ds[k].extensions.result.HasValue()
      invariant candidates == Survivors(ds[..i], Suitability(requiredExtensions), Key)
    {
      var dev := ds[i];
      if !dev.extensions.result.HasValue() {
        return Err(VkError(DEVICE_EXTENSIONS_FAILED, dev.extensions.result.Name()));
      }
      SurvivorsSnoc(ds, i, Suitability(requiredExtensions), Key);
      if Suitable(dev, requiredExtensions) {
        candidates := candidates + [Candidate(Key(dev), dev)];
      }
      i := i + 1;
    }
    assert ds[..i] == ds;
    return Ok(candidates);
  }

  /** The step after the loop of `pick_physical_device`: the device under
      `rbegin()`, provided its key is positive. */
  method SelectCandidate(ds: seq<PhysicalDevice>, requiredExtensions: seq<string>, candidates: seq<Candidate>)
    returns (r: Result<PhysicalDevice>)
    requires candidates == Survivors(ds, Suitability(requiredExtensions), Key)
    ensures r.Err? ==> r.error == Error.Undefined(EMPTY_CANDIDATES) || r.error == RuntimeError(NO_SUITABLE_GPU)
    ensures r.Err? && r.error.Undefined? <==> forall d :: d in ds ==> !Suitable(d, requiredExtensions)
    ensures r.Ok? ==> r.value in ds && Suitable(r.value, requiredExtensions) && Key(r.value) > 0
    ensures r.Ok? ==> forall d :: d in ds && Suitable(d, requiredExtensions) ==> Key(d) <= Key(r.value)
    ensures r == Err(RuntimeError(NO_SUITABLE_GPU)) ==>
              (exists d :: d in ds && Suitable(d, requiredExtensions))
              && forall d :: d in ds && Suitable(d, requiredExtensions) ==> Key(d) <= 0
    ensures r.Ok? ==> LastWithGreatestKey(ds, requiredExtensions, r.value)
  {
    if |candidates| == 0 {
      forall d | d in ds ensures !Suitable(d, requiredExtensions) {
        assert Suitability(requiredExtensions)(d) == Suitable(d, requiredExtensions);
      }
      return Err(Error.Undefined(EMPTY_CANDIDATES));
    }
    var best := Greatest(candidates);
    GreatestBoundsSurvivors(ds, Suitability(requiredExtensions), Key, candidates, best);
    assert candidates[best] in candidates;
    if candidates[best].key > 0 {
      SurvivorsOrder(ds, Suitability(requiredExtensions), Key, best);
      return Ok(candidates[best].device);
    }
    return Err(RuntimeError(NO_SUITABLE_GPU));
  }

  /** No device that `keep` accepts has a key above the entry `Greatest`
      designates. */
  lemma GreatestBoundsSurvivors(ds: seq<PhysicalDevice>, keep: PhysicalDevice -> bool, key: PhysicalDevice -> int,
                                cs: seq<Candidate>, p: nat)
    requires cs == Survivors(ds, keep, key)
    requires |cs| > 0 && p == Greatest(cs)
    ensures forall d :: d in ds && keep(d) ==> key(d) <= cs[p].key
  {
    forall d | d in ds && keep(d)
      ensures key(d) <= cs[p].key
    {
      var q :| 0 <= q < |cs| && cs[q] == Candidate(key(d), d);
    }
  }
}
