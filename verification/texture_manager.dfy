/** `render::memory::TextureManager`: the bindless texture registry. Paths are
    given slots 0, 1, 2, ... of a fixed array of `TEXTURES_MAX` image
    descriptors; every slot starts out showing the placeholder image, and a
    slot's descriptor is pointed at its texture's view once that texture is
    loaded. Image decoding is an input (`decoded`: the view of the created
    image, or None when decoding failed); the atomic counter and the map lock
    are modelled as plain sequential state. */
module Textures {
  import opened Common

  const TEXTURES_MAX: nat := 4096

  datatype ImageLayout = Undefined | ShaderReadOnlyOptimal

  /** VkDescriptorImageInfo. */
  datatype ImageInfo = ImageInfo(sampler: Handle, imageView: Handle, imageLayout: ImageLayout)

  /** VkDescriptorSetLayoutBinding (stage flags and immutable samplers are fixed). */
  datatype LayoutBinding = LayoutBinding(binding: nat, kind: DescriptorType, count: nat)

  datatype TextureError = TextureLimitReached

  /** The descriptor every slot holds before a texture is loaded into it. */
  function PlaceholderInfo(placeholderView: Handle): (d: ImageInfo)
  {
    ImageInfo(NULL_HANDLE, placeholderView, ShaderReadOnlyOptimal)
  }

  /** The registry's state: the counter, the path-to-slot map, the texture
      owned by each slot (null when none) and the slot descriptors. */
  datatype Registry = Registry(
    counter: nat,
    index: map<string, nat>,
    textures: seq<Handle>,
    descriptors: seq<ImageInfo>)

  /** State right after construction. */
  function Initial(placeholderView: Handle): (r: Registry)
  {
    Registry(0, map[], seq(TEXTURES_MAX, _ => NULL_HANDLE), seq(TEXTURES_MAX, _ => PlaceholderInfo(placeholderView)))
  }

  /** Slots handed out so far (the counter may run past the array). */
  function Loaded(r: Registry): nat
  {
    Min(r.counter, TEXTURES_MAX)
  }

  ghost predicate RegistryInv(r: Registry, placeholderView: Handle)
  {
    && |r.textures| == TEXTURES_MAX && |r.descriptors| == TEXTURES_MAX
    && (forall p :: p in r.index ==> r.index[p] < Loaded(r))
    && (forall p, q :: p in r.index && q in r.index && p != q ==> r.index[p] != r.index[q])
    && (forall p :: p in r.index ==> r.descriptors[r.index[p]].imageView == r.textures[r.index[p]])
    && (forall i :: 0 <= i < TEXTURES_MAX ==>
          r.descriptors[i].sampler == NULL_HANDLE && r.descriptors[i].imageLayout == ShaderReadOnlyOptimal)
    && (forall i :: Loaded(r) <= i < TEXTURES_MAX ==>
          r.descriptors[i] == PlaceholderInfo(placeholderView) && r.textures[i] == NULL_HANDLE)
  }

  datatype LoadOutcome = LoadOutcome(state: Registry, result: Result<nat, TextureError>)

  /** `loadTexture(path)`. */
  function Load(r: Registry, path: string, decoded: Option<Handle>): (o: LoadOutcome)
    requires |r.textures| == TEXTURES_MAX && |r.descriptors| == TEXTURES_MAX
  {
    if path in r.index then LoadOutcome(r, Ok(r.index[path]))
    else if decoded.None? then LoadOutcome(r, Ok(TEXTURES_MAX - 1))
    else
      var slot := r.counter;
      var bumped := r.(counter := r.counter + 1);
      if slot >= TEXTURES_MAX then LoadOutcome(bumped, Err(TextureLimitReached))
      else
        LoadOutcome(
          bumped.(index := r.index[path := slot],
                  textures := r.textures[slot := decoded.value],
                  descriptors := r.descriptors[slot := r.descriptors[slot].(imageView := decoded.value)]),
          Ok(slot))
  }

  /** Loads the paths one after another; `decoded[k]` is what decoding
      `paths[k]` yields. */
  function LoadAll(r: Registry, paths: seq<string>, decoded: seq<Option<Handle>>): (o: (Registry, seq<Result<nat, TextureError>>))
    requires |r.textures| == TEXTURES_MAX && |r.descriptors| == TEXTURES_MAX
    requires |paths| == |decoded|
    ensures |o.0.textures| == TEXTURES_MAX && |o.0.descriptors| == TEXTURES_MAX && |o.1| == |paths|
    decreases |paths|
  {
    if paths == [] then (r, [])
    else
      var first := Load(r, paths[0], decoded[0]);
      var rest := LoadAll(first.state, paths[1..], decoded[1..]);
      (rest.0, [first.result] + rest.1)
  }

  // ---------------------------------------------------------------- lemmas

  lemma InitialInv(placeholderView: Handle)
    ensures RegistryInv(Initial(placeholderView), placeholderView)
  {
  }

  /** Every load keeps the registry invariant. */
  lemma LoadPreservesInv(r: Registry, placeholderView: Handle, path: string, decoded: Option<Handle>)
    requires RegistryInv(r, placeholderView)
    ensures RegistryInv(Load(r, path, decoded).state, placeholderView)
  {
    var o := Load(r, path, decoded).state;
    if path !in r.index && decoded.Some? && r.counter < TEXTURES_MAX {
      forall p | p in o.index ensures o.descriptors[o.index[p]].imageView == o.textures[o.index[p]] {
        if p != path {
          assert r.index[p] < r.counter;
        }
      }
    }
  }

  /** A path already in the map gets its stored slot back and nothing
      changes; so once a path has been loaded (not merely reported as
      undecodable), loading it again gives the same slot and changes nothing. */
  lemma HitIsIdempotent(r: Registry, path: string, decoded: Option<Handle>, decodedAgain: Option<Handle>)
    requires |r.textures| == TEXTURES_MAX && |r.descriptors| == TEXTURES_MAX
    ensures path in r.index ==> Load(r, path, decoded) == LoadOutcome(r, Ok(r.index[path]))
    ensures var first := Load(r, path, decoded);
      first.result.Ok? && (path in r.index || decoded.Some?) ==>
        Load(first.state, path, decodedAgain) == LoadOutcome(first.state, first.result)
  {
  }

  /** A path that fails to decode gets the sentinel slot and nothing changes. */
  lemma DecodeFailureGivesSentinel(r: Registry, path: string)
    requires |r.textures| == TEXTURES_MAX && |r.descriptors| == TEXTURES_MAX
    requires path !in r.index
    ensures Load(r, path, None) == LoadOutcome(r, Ok(TEXTURES_MAX - 1))
  {
  }

  /** A new, decodable path below capacity gets the counter's old value; the
      counter grows by one, the map gains exactly that entry, and only that
      slot's texture and descriptor view change. */
  lemma NewPathGetsNextSlot(r: Registry, placeholderView: Handle, path: string, view: Handle)
    requires RegistryInv(r, placeholderView) && path !in r.index && r.counter < TEXTURES_MAX
    ensures var o := Load(r, path, Some(view));
      && o.result == Ok(r.counter)
      && o.state.counter == r.counter + 1
      && o.state.index == r.index[path := r.counter]
      && o.state.textures[r.counter] == view
      && o.state.descriptors[r.counter] == ImageInfo(NULL_HANDLE, view, ShaderReadOnlyOptimal)
      && (forall i :: 0 <= i < TEXTURES_MAX && i != r.counter ==>
            o.state.textures[i] == r.textures[i] && o.state.descriptors[i] == r.descriptors[i])
      && r.counter !in r.index.Values
  {
  }

  /** Past capacity, a new decodable path throws after the counter was
      bumped; the map and the slots are untouched, and from then on every new
      decodable path throws too. */
  lemma OverflowIsSticky(r: Registry, path: string, view: Handle, later: string, laterView: Handle)
    requires |r.textures| == TEXTURES_MAX && |r.descriptors| == TEXTURES_MAX
    requires path !in r.index && r.counter >= TEXTURES_MAX
    ensures var o := Load(r, path, Some(view));
      && o.result == Err(TextureLimitReached)
      && o.state == r.(counter := r.counter + 1)
      && (later !in r.index ==> Load(o.state, later, Some(laterView)).result == Err(TextureLimitReached))
  {
  }

  /** Distinct new paths that all decode are given consecutive slots in call
      order, starting from the counter. */
  lemma {:induction false} SequentialSlots(r: Registry, paths: seq<string>, decoded: seq<Option<Handle>>)
    requires |r.textures| == TEXTURES_MAX && |r.descriptors| == TEXTURES_MAX
    requires |paths| == |decoded| && Distinct(paths)
    requires forall k :: 0 <= k < |paths| ==> paths[k] !in r.index && decoded[k].Some?
    requires r.counter + |paths| <= TEXTURES_MAX
    ensures var o := LoadAll(r, paths, decoded);
      && o.0.counter == r.counter + |paths|
      && forall k :: 0 <= k < |paths| ==> o.1[k] == Ok(r.counter + k)
    decreases |paths|
  {
    if paths != [] {
      var first := Load(r, paths[0], decoded[0]);
      assert first.result == Ok(r.counter) && first.state.counter == r.counter + 1;
      assert first.state.index == r.index[paths[0] := r.counter];
      TailStillNew(r.index, paths, r.counter);
      SequentialSlots(first.state, paths[1..], decoded[1..]);
      var rest := LoadAll(first.state, paths[1..], decoded[1..]);
      var o := LoadAll(r, paths, decoded);
      assert o == (rest.0, [first.result] + rest.1);
      forall k | 0 <= k < |paths| ensures o.1[k] == Ok(r.counter + k) {
        if k > 0 {
          assert o.1[k] == rest.1[k - 1];
        }
      }
    }
  }

  /** After the first of distinct new paths is entered, the others are still
      distinct and new. */
  lemma TailStillNew(index: map<string, nat>, paths: seq<string>, slot: nat)
    requires |paths| > 0 && Distinct(paths)
    requires forall k :: 0 <= k < |paths| ==> paths[k] !in index
    ensures Distinct(paths[1..])
    ensures forall k :: 0 <= k < |paths| - 1 ==> paths[1..][k] !in index[paths[0] := slot]
  {
    forall k | 0 <= k < |paths| - 1 ensures paths[1..][k] !in index[paths[0] := slot] {
      assert paths[1..][k] == paths[k + 1] != paths[0];
    }
    forall i, j | 0 <= i < j < |paths| - 1 ensures paths[1..][i] != paths[1..][j] {
      assert paths[1..][i] == paths[i + 1] && paths[1..][j] == paths[j + 1];
    }
  }

  /** The sentinel slot is not reserved: with 4095 textures loaded, the next
      new texture gets exactly the slot a decode failure reports. */
  lemma SentinelIsNotReserved(r: Registry, placeholderView: Handle, path: string, view: Handle, broken: string)
    requires RegistryInv(r, placeholderView)
    requires r.counter == TEXTURES_MAX - 1 && path !in r.index && broken !in r.index
    ensures Load(r, path, Some(view)).result == Load(r, broken, None).result == Ok(TEXTURES_MAX - 1)
  {
  }

  /** The registry with its descriptor array and texture array. */
  class TextureManager {
    var counter: nat
    var indexMap: map<string, nat>
    const textures: array<Handle>
    const descriptors: array<ImageInfo>
    const placeholderView: Handle
    const sampler: Handle
    var textureArrayBinding: LayoutBinding
    var samplerBinding: LayoutBinding
    var samplerDescriptor: ImageInfo
    /** The pool sizes the per-frame system asks for; nothing ever fills them. */
    var poolSizes: seq<PoolSize>

    ghost function Abstract(): (r: Registry)
      reads this, textures, descriptors
    {
      Registry(counter, indexMap, textures[..], descriptors[..])
    }

    ghost predicate Valid()
      reads this, textures, descriptors
    {
      textures.Length == TEXTURES_MAX && descriptors.Length == TEXTURES_MAX &&
      RegistryInv(Abstract(), placeholderView)
    }

    /** The constructor, with the placeholder image's view and the sampler as
        inputs; runs `initialBindingInformationCreation`. */
    constructor (placeholderView: Handle, sampler: Handle)
      ensures Valid() && fresh(textures) && fresh(descriptors)
      ensures this.placeholderView == placeholderView && this.sampler == sampler
      ensures Abstract() == Initial(placeholderView)
      ensures textureArrayBinding == LayoutBinding(1, SampledImage, TEXTURES_MAX)
      ensures samplerBinding == LayoutBinding(0, Sampler, 1)
      ensures samplerDescriptor == ImageInfo(sampler, NULL_HANDLE, Undefined)
      ensures poolSizes == []
    {
      counter := 0;
      indexMap := map[];
      textures := new Handle[TEXTURES_MAX](_ => NULL_HANDLE);
      descriptors := new ImageInfo[TEXTURES_MAX](_ => ImageInfo(NULL_HANDLE, NULL_HANDLE, Undefined));
      this.placeholderView := placeholderView;
      this.sampler := sampler;
      poolSizes := [];
      new;
      textureArrayBinding := LayoutBinding(1, SampledImage, TEXTURES_MAX);
      samplerBinding := LayoutBinding(0, Sampler, 1);
      var i := 0;
      while i < TEXTURES_MAX
        invariant 0 <= i <= TEXTURES_MAX
        invariant forall k :: 0 <= k < i ==> descriptors[k] == PlaceholderInfo(placeholderView)
        modifies descriptors
      {
        descriptors[i] := descriptors[i].(sampler := NULL_HANDLE);
        descriptors[i] := descriptors[i].(imageLayout := ShaderReadOnlyOptimal);
        descriptors[i] := descriptors[i].(imageView := placeholderView);
        i := i + 1;
      }
      samplerDescriptor := ImageInfo(sampler, NULL_HANDLE, Undefined);
      assert textures[..] == Initial(placeholderView).textures;
      assert descriptors[..] == Initial(placeholderView).descriptors;
    }

    /** `findInIndexMapSafe`. */
    function FindInIndexMap(path: string): (slot: Option<nat>)
      reads this
      ensures slot.Some? <==> path in indexMap
      ensures slot.Some? ==> slot.value == indexMap[path]
    {
      if path in indexMap then Some(indexMap[path]) else None
    }

    /** `setInIndexMapSafe`. */
    method SetInIndexMap(path: string, slot: nat)
      modifies this`indexMap
      ensures indexMap == old(indexMap)[path := slot]
    {
      indexMap := indexMap[path := slot];
    }

    /** `generateDescriptorEntry`: points the slot's descriptor at its texture. */
    method GenerateDescriptorEntry(slot: nat)
      requires textures.Length == descriptors.Length == TEXTURES_MAX && slot < TEXTURES_MAX
      modifies descriptors
      ensures descriptors[..] == old(descriptors[..])[slot := old(descriptors[slot]).(imageView := textures[slot])]
    {
      descriptors[slot] := descriptors[slot].(imageView := textures[slot]);
    }

    /** `loadTexture(path)`, with the decode-and-upload result as input. */
    method LoadTexture(path: string, decoded: Option<Handle>) returns (result: Result<nat, TextureError>)
      requires Valid()
      modifies this`counter, this`indexMap, textures, descriptors
      ensures Valid()
      ensures Abstract() == Load(old(Abstract()), path, decoded).state
      ensures result == Load(old(Abstract()), path, decoded).result
    {
      ghost var before := Abstract();
      LoadPreservesInv(before, placeholderView, path, decoded);
      var found := FindInIndexMap(path);
      if found.Some? {
        return Ok(found.value);
      }
      if decoded.None? {
        return Ok(TEXTURES_MAX - 1);
      }
      var slot := counter;
      counter := counter + 1;
      if slot >= TEXTURES_MAX {
        return Err(TextureLimitReached);
      }
      textures[slot] := decoded.value;
      SetInIndexMap(path, slot);
      GenerateDescriptorEntry(slot);
      return Ok(slot);
    }
  }
}
