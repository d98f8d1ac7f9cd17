/**
 * What the translations promise: which bits end up in the masks, that order
 * and duplicates do not matter to them, how the layouts are chosen, and what
 * the two optional error checks accept.
 */
module BarrierProperties {

  import opened Vulkan
  import opened AccessTypes
  import opened Barriers

  // ---- Stage and access masks ----------------------------------------------

  /** The union of `f` over the elements of `s`. */
  function UnionOf<A, T>(s: seq<A>, f: A -> set<T>): set<T> {
    if |s| == 0 then {} else UnionOf(s[..|s| - 1], f) + f(s[|s| - 1])
  }

  /** Something is in the union exactly when it is in `f` of some element. */
  lemma {:induction false} UnionOfMembers<A, T>(s: seq<A>, f: A -> set<T>, x: T)
    ensures x in UnionOf(s, f) <==> exists i :: 0 <= i < |s| && x in f(s[i])
    decreases |s|
  {
    if |s| > 0 {
      var n := |s| - 1;
      UnionOfMembers(s[..n], f, x);
      if i :| 0 <= i < n && x in f(s[..n][i]) {
        assert s[i] == s[..n][i];
      }
      if i :| 0 <= i < |s| && x in f(s[i]) {
        if i < n {
          assert s[..n][i] == s[i];
        }
      }
    }
  }

  /** The stage fold is the union of the listed accesses' rows. */
  lemma {:induction false} StagesOfIsUnion(accesses: seq<AccessType>)
    ensures StagesOf(accesses) == UnionOf(accesses, (a: AccessType) => Info(a).stageMask)
    decreases |accesses|
  {
    if |accesses| > 0 {
      StagesOfIsUnion(accesses[..|accesses| - 1]);
    }
  }

  /** The access fold is the union of the listed accesses' rows. */
  lemma {:induction false} AccessesOfIsUnion(accesses: seq<AccessType>)
    ensures AccessesOf(accesses) == UnionOf(accesses, (a: AccessType) => Info(a).accessMask)
    decreases |accesses|
  {
    if |accesses| > 0 {
      AccessesOfIsUnion(accesses[..|accesses| - 1]);
    }
  }

  /** The write fold is the union of the listed writes' rows. */
  lemma {:induction false} WriteAccessesOfIsUnion(accesses: seq<AccessType>)
    ensures WriteAccessesOf(accesses) ==
      UnionOf(accesses, (a: AccessType) => if IsWrite(a) then Info(a).accessMask else {})
    decreases |accesses|
  {
    if |accesses| > 0 {
      WriteAccessesOfIsUnion(accesses[..|accesses| - 1]);
    }
  }

  /** A stage bit is in the folded mask exactly when some listed access carries it. */
  lemma StagesOfMembers(accesses: seq<AccessType>, stage: PipelineStage)
    ensures stage in StagesOf(accesses) <==>
      exists i :: 0 <= i < |accesses| && stage in Info(accesses[i]).stageMask
  {
    StagesOfIsUnion(accesses);
    UnionOfMembers(accesses, (a: AccessType) => Info(a).stageMask, stage);
  }

  /** An access bit is in a next list's mask exactly when some listed access carries it. */
  lemma AccessesOfMembers(accesses: seq<AccessType>, flag: AccessFlag)
    ensures flag in AccessesOf(accesses) <==>
      exists i :: 0 <= i < |accesses| && flag in Info(accesses[i]).accessMask
  {
    AccessesOfIsUnion(accesses);
    UnionOfMembers(accesses, (a: AccessType) => Info(a).accessMask, flag);
  }

  /**
   * An access bit is in a previous list's mask exactly when some listed
   * write (an access declared after PRESENT) carries it.
   */
  lemma WriteAccessesOfMembers(accesses: seq<AccessType>, flag: AccessFlag)
    ensures flag in WriteAccessesOf(accesses) <==>
      exists i :: 0 <= i < |accesses| && IsWrite(accesses[i]) && flag in Info(accesses[i]).accessMask
  {
    var f := (a: AccessType) => if IsWrite(a) then Info(a).accessMask else {};
    WriteAccessesOfIsUnion(accesses);
    UnionOfMembers(accesses, f, flag);
  }

  /** The masks depend only on which access types are listed: not on order, not on repeats. */
  lemma MasksDependOnlyOnListedAccesses(s: seq<AccessType>, t: seq<AccessType>)
    requires forall a :: a in s <==> a in t
    ensures StagesOf(s) == StagesOf(t)
    ensures AccessesOf(s) == AccessesOf(t)
    ensures WriteAccessesOf(s) == WriteAccessesOf(t)
  {
    forall stage | stage in StagesOf(s) ensures stage in StagesOf(t) {
      StagesOfMembers(s, stage);
      StagesOfMembers(t, stage);
      var i :| 0 <= i < |s| && stage in Info(s[i]).stageMask;
      assert s[i] in t;
    }
    forall stage | stage in StagesOf(t) ensures stage in StagesOf(s) {
      StagesOfMembers(s, stage);
      StagesOfMembers(t, stage);
      var i :| 0 <= i < |t| && stage in Info(t[i]).stageMask;
      assert t[i] in s;
    }
    forall flag | flag in AccessesOf(s) ensures flag in AccessesOf(t) {
      AccessesOfMembers(s, flag);
      AccessesOfMembers(t, flag);
      var i :| 0 <= i < |s| && flag in Info(s[i]).accessMask;
      assert s[i] in t;
    }
    forall flag | flag in AccessesOf(t) ensures flag in AccessesOf(s) {
      AccessesOfMembers(s, flag);
      AccessesOfMembers(t, flag);
      var i :| 0 <= i < |t| && flag in Info(t[i]).accessMask;
      assert t[i] in s;
    }
    forall flag | flag in WriteAccessesOf(s) ensures flag in WriteAccessesOf(t) {
      WriteAccessesOfMembers(s, flag);
      WriteAccessesOfMembers(t, flag);
      var i :| 0 <= i < |s| && IsWrite(s[i]) && flag in Info(s[i]).accessMask;
      assert s[i] in t;
    }
    forall flag | flag in WriteAccessesOf(t) ensures flag in WriteAccessesOf(s) {
      WriteAccessesOfMembers(s, flag);
      WriteAccessesOfMembers(t, flag);
      var i :| 0 <= i < |t| && IsWrite(t[i]) && flag in Info(t[i]).accessMask;
      assert t[i] in s;
    }
  }

  /** Hence a global barrier's translation ignores the order of and repeats in its lists. */
  lemma MemoryBarrierIgnoresOrderAndRepeats(b: GlobalBarrier, c: GlobalBarrier)
    requires forall a :: a in b.prevAccesses <==> a in c.prevAccesses
    requires forall a :: a in b.nextAccesses <==> a in c.nextAccesses
    ensures MemoryBarrierFor(b) == MemoryBarrierFor(c)
    ensures StagesOf(b.prevAccesses) == StagesOf(c.prevAccesses)
    ensures StagesOf(b.nextAccesses) == StagesOf(c.nextAccesses)
  {
    MasksDependOnlyOnListedAccesses(b.prevAccesses, c.prevAccesses);
    MasksDependOnlyOnListedAccesses(b.nextAccesses, c.nextAccesses);
  }

  /** Folding two lists one after the other ORs their stage masks. */
  lemma {:induction false} StagesOfAppend(s: seq<AccessType>, t: seq<AccessType>)
    ensures StagesOf(s + t) == StagesOf(s) + StagesOf(t)
    decreases |t|
  {
    if |t| == 0 {
      assert s + t == s;
    } else {
      var init := t[..|t| - 1];
      StagesOfAppend(s, init);
      assert (s + t)[..|s + t| - 1] == s + init;
      assert (s + t)[|s + t| - 1] == t[|t| - 1];
    }
  }

  /** A previous list of reads (NONE and PRESENT included) makes no access available. */
  lemma ReadsMakeNothingAvailable(accesses: seq<AccessType>)
    requires forall i :: 0 <= i < |accesses| ==> !IsWrite(accesses[i])
    ensures WriteAccessesOf(accesses) == {}
  {
    forall flag | flag in WriteAccessesOf(accesses) ensures false {
      WriteAccessesOfMembers(accesses, flag);
    }
  }

  /**
   * A single previous access contributes its stages, and its access bits only
   * when it is a write; a single next access contributes both.
   */
  lemma SingleAccess(a: AccessType)
    ensures StagesOf([a]) == Info(a).stageMask
    ensures AccessesOf([a]) == Info(a).accessMask
    ensures WriteAccessesOf([a]) == if IsWrite(a) then Info(a).accessMask else {}
  {
    assert [a][..0] == [];
  }

  /** Two accesses contribute the union of their rows. */
  lemma TwoAccesses(a: AccessType, b: AccessType)
    ensures StagesOf([a, b]) == Info(a).stageMask + Info(b).stageMask
    ensures AccessesOf([a, b]) == Info(a).accessMask + Info(b).accessMask
    ensures WriteAccessesOf([a, b]) ==
      (if IsWrite(a) then Info(a).accessMask else {}) + (if IsWrite(b) then Info(b).accessMask else {})
  {
    assert [a, b][..1] == [a];
    SingleAccess(a);
  }

  // ---- Image layouts --------------------------------------------------------

  /** Under GENERAL, PRESENT alone resolves to PRESENT_SRC; everything else to GENERAL. */
  lemma GeneralPolicyLayouts(a: AccessType)
    ensures ResolveLayout(GeneralPolicy, a) == LayoutPresentSrcKhr <==> a == Present
    ensures a != Present ==> ResolveLayout(GeneralPolicy, a) == LayoutGeneral
  {
  }

  /**
   * GENERAL never transitions between non-presentation accesses, and
   * GENERAL_AND_PRESENTATION never transitions at all.
   */
  lemma GeneralPoliciesAvoidTransitions(a: AccessType, b: AccessType)
    ensures a != Present && b != Present ==> ResolveLayout(GeneralPolicy, a) == ResolveLayout(GeneralPolicy, b)
    ensures ResolveLayout(GeneralAndPresentationPolicy, a) == LayoutSharedPresentKhr
  {
  }

  /** Under OPTIMAL the layout is the table's. */
  lemma OptimalPolicyUsesTable(a: AccessType)
    ensures ResolveLayout(OptimalPolicy, a) == Info(a).imageLayout
  {
  }

  /**
   * How the old layout comes out: UNDEFINED when discarding after at least
   * one access; the caller's value when there is no access; otherwise the
   * last access's resolution.
   */
  lemma OldLayoutChosen(b: ImageBarrier, oldIn: ImageLayout, newIn: ImageLayout, a: AccessType)
    ensures |b.prevAccesses| > 0 && b.discardContents ==>
      ImageMemoryBarrierFor(b, oldIn, newIn).oldLayout == LayoutUndefined
    ensures |b.prevAccesses| == 0 ==> ImageMemoryBarrierFor(b, oldIn, newIn).oldLayout == oldIn
    ensures !b.discardContents ==>
      ImageMemoryBarrierFor(b.(prevAccesses := b.prevAccesses + [a]), oldIn, newIn).oldLayout
        == ResolveLayout(b.prevLayout, a)
  {
  }

  /** The new layout: the caller's value for an empty list, else the last access's. */
  lemma NewLayoutChosen(b: ImageBarrier, oldIn: ImageLayout, newIn: ImageLayout, a: AccessType)
    ensures |b.nextAccesses| == 0 ==> ImageMemoryBarrierFor(b, oldIn, newIn).newLayout == newIn
    ensures ImageMemoryBarrierFor(b.(nextAccesses := b.nextAccesses + [a]), oldIn, newIn).newLayout
      == ResolveLayout(b.nextLayout, a)
  {
  }

  /** Discard does nothing without a previous access: the caller's old layout stays. */
  lemma DiscardNeedsAPreviousAccess(b: ImageBarrier, oldIn: ImageLayout, newIn: ImageLayout)
    requires b.discardContents && oldIn != LayoutUndefined
    ensures ImageMemoryBarrierFor(b, oldIn, newIn).oldLayout == LayoutUndefined <==> |b.prevAccesses| > 0
  {
  }

  /** Unlike the masks, the layouts depend on the order of the list: the last access wins. */
  lemma LayoutDependsOnOrder()
    ensures OldLayoutAfter(OptimalPolicy, false, [ComputeShaderWrite, ColorAttachmentWrite], LayoutUndefined)
      == LayoutColorAttachmentOptimal
    ensures OldLayoutAfter(OptimalPolicy, false, [ColorAttachmentWrite, ComputeShaderWrite], LayoutUndefined)
      == LayoutGeneral
  {
  }

  /** Everything but the masks and the layouts is copied from the request or is a constant. */
  lemma ImageBarrierCopiesTheRest(b: ImageBarrier, oldIn: ImageLayout, newIn: ImageLayout)
    ensures var vk := ImageMemoryBarrierFor(b, oldIn, newIn);
      vk.sType == StructureTypeImageMemoryBarrier && vk.pNext == NULL &&
      vk.srcQueueFamilyIndex == b.srcQueueFamilyIndex && vk.dstQueueFamilyIndex == b.dstQueueFamilyIndex &&
      vk.image == b.image && vk.subresourceRange == b.subresourceRange
  {
  }

  // ---- THSVS_ERROR_CHECK_MIXED_IMAGE_LAYOUT ---------------------------------

  /**
   * The assertions the mixed-layout check makes along one loop, starting
   * from the layout `stored` in the caller's structure: before each access
   * overwrites the stored layout, the stored layout is UNDEFINED or equal to
   * the access's own.
   */
  predicate MixedLayoutCheckPasses(policy: LayoutPolicy, accesses: seq<AccessType>, stored: ImageLayout)
    decreases |accesses|
  {
    |accesses| == 0 ||
    var layout := ResolveLayout(policy, accesses[0]);
    (stored == LayoutUndefined || stored == layout) && MixedLayoutCheckPasses(policy, accesses[1..], layout)
  }

  /** The check on a whole image barrier (the previous loop is not checked when discarding). */
  predicate ImageLayoutChecksPass(b: ImageBarrier, oldIn: ImageLayout, newIn: ImageLayout) {
    (b.discardContents || MixedLayoutCheckPasses(b.prevLayout, b.prevAccesses, oldIn)) &&
    MixedLayoutCheckPasses(b.nextLayout, b.nextAccesses, newIn)
  }

  /**
   * What passing the check guarantees: every access whose layout is not
   * UNDEFINED resolves to the final layout, and a layout the caller stored
   * (other than UNDEFINED) is kept.
   */
  lemma {:induction false} MixedLayoutCheckMeansAgreement(policy: LayoutPolicy, accesses: seq<AccessType>,
                                                          stored: ImageLayout)
    requires MixedLayoutCheckPasses(policy, accesses, stored)
    ensures forall i :: 0 <= i < |accesses| && ResolveLayout(policy, accesses[i]) != LayoutUndefined ==>
      ResolveLayout(policy, accesses[i]) == NewLayoutAfter(policy, accesses, stored)
    ensures stored != LayoutUndefined ==> NewLayoutAfter(policy, accesses, stored) == stored
    decreases |accesses|
  {
    if |accesses| > 0 {
      var first := ResolveLayout(policy, accesses[0]);
      var rest := accesses[1..];
      MixedLayoutCheckMeansAgreement(policy, rest, first);
      if |rest| > 0 {
        assert rest[|rest| - 1] == accesses[|accesses| - 1];
        assert NewLayoutAfter(policy, rest, first) == NewLayoutAfter(policy, accesses, stored);
        forall i | 1 <= i < |accesses| ensures accesses[i] == rest[i - 1] {
        }
      }
    }
  }

  /** Conversely, lists whose accesses all resolve to one layout pass the check. */
  lemma {:induction false} AgreeingLayoutsPassMixedLayoutCheck(policy: LayoutPolicy, accesses: seq<AccessType>,
                                                               stored: ImageLayout, layout: ImageLayout)
    requires forall i :: 0 <= i < |accesses| ==> ResolveLayout(policy, accesses[i]) == layout
    requires stored == LayoutUndefined || stored == layout
    ensures MixedLayoutCheckPasses(policy, accesses, stored)
    decreases |accesses|
  {
    if |accesses| > 0 {
      var rest := accesses[1..];
      forall i | 0 <= i < |rest| ensures ResolveLayout(policy, rest[i]) == layout {
        assert rest[i] == accesses[i + 1];
      }
      AgreeingLayoutsPassMixedLayoutCheck(policy, rest, ResolveLayout(policy, accesses[0]), layout);
    }
  }

  /**
   * The check reads UNDEFINED as "nothing stored yet", so an access that
   * resolves to UNDEFINED may precede another layout but not follow one.
   */
  lemma MixedLayoutCheckTreatsUndefinedAsUnset()
    ensures MixedLayoutCheckPasses(OptimalPolicy, [NoAccess, ColorAttachmentWrite], LayoutUndefined)
    ensures !MixedLayoutCheckPasses(OptimalPolicy, [ColorAttachmentWrite, NoAccess], LayoutUndefined)
  {
  }

  /** Two accesses that imply different layouts fail the check. */
  lemma MixedLayoutCheckRejectsSampleThenWrite()
    ensures !MixedLayoutCheckPasses(OptimalPolicy, [ComputeShaderReadSampledImageOrUniformTexelBuffer,
                                                    ComputeShaderWrite], LayoutUndefined)
  {
  }

  // ---- THSVS_ERROR_CHECK_POTENTIAL_HAZARD ----------------------------------

  /** Every access in the list is a read, or the list has a single entry. */
  predicate PotentialHazardCheckPasses(accesses: seq<AccessType>) {
    forall i :: 0 <= i < |accesses| ==> Ordinal(accesses[i]) <= Ordinal(Present) || |accesses| == 1
  }

  /**
   * Under the hazard check, a previous list makes access bits available only
   * when it is a single write, and then exactly that write's bits.
   */
  lemma HazardCheckedListsMakeAvailableOnlyALoneWrite(accesses: seq<AccessType>)
    requires PotentialHazardCheckPasses(accesses)
    ensures |accesses| != 1 ==> WriteAccessesOf(accesses) == {}
    ensures |accesses| == 1 ==>
      WriteAccessesOf(accesses) == if IsWrite(accesses[0]) then Info(accesses[0]).accessMask else {}
  {
    if |accesses| == 1 {
      assert accesses == [accesses[0]];
      SingleAccess(accesses[0]);
    } else {
      ReadsMakeNothingAvailable(accesses);
    }
  }
}
