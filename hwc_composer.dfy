/**
 * The hardware-composer front end of the Gonk widget layer
 * (widget/gonk/HwcComposer2D.cpp): the growable layer list handed to the
 * HWC HAL, the vsync enable rule, and the composition flags.
 *
 * The HAL and the C allocator are not part of this model; what they answer
 * is passed in as a parameter.
 */
module HwcComposer {
  import opened Wrappers

  /** The layer list grows by this many layers at a time. */
  const LAYER_COUNT_INCREMENTS: nat := 5

  /** One entry of the HAL's layer array; its contents are opaque here. */
  datatype HwcLayer = HwcLayer(compositionType: int, hints: int, flags: int)

  /**
   * The heap block `mList` points at: the list header followed by
   * `hwLayers`, whose length is the number of layers the block has room for.
   */
  datatype HwcList = HwcList(numHwLayers: int, flags: int, hwLayers: seq<HwcLayer>)

  /**
   * What a successful `realloc(mList, size)` may hand back when growing a
   * block to `layers` layers: a block of that size that keeps the old
   * header and layers (and holds anything at all after a first allocation).
   */
  ghost predicate IsGrowthOf(block: HwcList, old_list: Option<HwcList>, layers: nat)
  {
    && |block.hwLayers| == layers
    && (old_list.Some? ==>
          && block.numHwLayers == old_list.value.numHwLayers
          && block.flags == old_list.value.flags
          && |old_list.value.hwLayers| <= layers
          && block.hwLayers[..|old_list.value.hwLayers|] == old_list.value.hwLayers)
  }

  class HwcComposer2D {
    var list: Option<HwcList>
    var maxLayerCount: nat
    var colorFill: bool
    var rbSwapSupport: bool
    var prepared: bool
    var hasHwVsync: bool
    var stopRenderWithHwc: bool
    var alwaysEnabled: bool

    /**
     * The block always has room for exactly `maxLayerCount` layers, which
     * grows in whole increments from zero.
     */
    ghost predicate Valid()
      reads this
    {
      && (list.None? ==> maxLayerCount == 0)
      && (list.Some? ==> |list.value.hwLayers| == maxLayerCount)
      && maxLayerCount % LAYER_COUNT_INCREMENTS == 0
    }

    /**
     * `hasHwc`, `registered`, `queryColorFill` and `queryRbSwap` are the
     * HAL's answers to `HasHwc`, `RegisterHwcEventCallback` and the two
     * capability queries; without an HWC the HAL is not asked anything else.
     */
    constructor(hasHwc: bool, registered: bool, queryColorFill: bool, queryRbSwap: bool)
      ensures Valid()
      ensures list == None && maxLayerCount == 0
      ensures !prepared && !stopRenderWithHwc && !alwaysEnabled
      ensures hasHwVsync == (hasHwc && registered)
      ensures colorFill == (hasHwc && queryColorFill)
      ensures rbSwapSupport == (hasHwc && queryRbSwap)
    {
      list := None;
      maxLayerCount := 0;
      colorFill := false;
      rbSwapSupport := false;
      prepared := false;
      hasHwVsync := false;
      stopRenderWithHwc := false;
      alwaysEnabled := false;
      if hasHwc {
        hasHwVsync := registered;
        colorFill := queryColorFill;
        rbSwapSupport := queryRbSwap;
      }
    }

    /**
     * Grows the layer list by `LAYER_COUNT_INCREMENTS` layers. `allocation`
     * is what `realloc` returned: `None` for a null pointer.
     */
    method ReallocLayerList(allocation: Option<HwcList>) returns (ok: bool)
      requires Valid()
      requires allocation.Some? ==>
                 IsGrowthOf(allocation.value, list, maxLayerCount + LAYER_COUNT_INCREMENTS)
      modifies this`list, this`maxLayerCount
      ensures Valid()
      ensures ok <==> allocation.Some?
      ensures !ok ==> list == old(list) && maxLayerCount == old(maxLayerCount)
      ensures ok ==> maxLayerCount == old(maxLayerCount) + LAYER_COUNT_INCREMENTS
      ensures ok && old(list).None? ==>
                list.Some? && list.value.numHwLayers == 0 && list.value.flags == 0
      ensures ok && old(list).Some? ==>
                && list.Some?
                && list.value.numHwLayers == old(list).value.numHwLayers
                && list.value.flags == old(list).value.flags
                && list.value.hwLayers[..old(maxLayerCount)] == old(list).value.hwLayers
    {
      if allocation.None? {
        return false;
      }
      var block := allocation.value;
      if list.None? {
        block := block.(numHwLayers := 0, flags := 0);
      }
      list := Some(block);
      maxLayerCount := maxLayerCount + LAYER_COUNT_INCREMENTS;
      return true;
    }

    /**
     * Asks for hardware vsync to be switched on or off. `halAnswer` is what
     * the HAL's `EnableVsync` would return; `halRequest` is the argument the
     * HAL was actually called with, or `None` when it was not consulted.
     */
    method EnableVsync(enable: bool, halAnswer: bool) returns (r: bool, halRequest: Option<bool>)
      ensures !hasHwVsync ==> !r && halRequest == None
      ensures hasHwVsync && alwaysEnabled && !enable ==> r && halRequest == None
      ensures hasHwVsync && (enable || !alwaysEnabled) ==>
                halRequest == Some(enable) && (r <==> enable && halAnswer)
      ensures !enable && r ==> alwaysEnabled
    {
      if !hasHwVsync {
        return false, None;
      }
      if alwaysEnabled && !enable {
        return true, None;
      }
      r := halAnswer && enable;
      halRequest := Some(enable);
    }

    /**
     * Hands the current layer list to the HAL's prepare step (not modelled).
     * `warned` says whether a prepare was already pending, the case the
     * source logs as an error.
     */
    method Prepare() returns (warned: bool)
      modifies this`prepared
      ensures prepared
      ensures warned == old(prepared)
    {
      warned := prepared;
      prepared := true;
    }

    method StopRenderWithHwc(isStop: bool)
      modifies this`stopRenderWithHwc
      ensures stopRenderWithHwc == isStop
    {
      stopRenderWithHwc := isStop;
    }

    method SetVsyncAlwaysEnabled(always: bool)
      modifies this`alwaysEnabled
      ensures alwaysEnabled == always
    {
      alwaysEnabled := always;
    }
  }
}
