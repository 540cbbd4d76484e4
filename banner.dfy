/**
 * The banner carousel: a builder that validates its inputs, and a banner that
 * recycles six item views over an effectively endless pager, keeps the page
 * indicator on the current item and advances one page each time its posted
 * task runs.
 */
module BannerWidget {
  import opened Results
  import opened BannerPaging
  import opened IndicatorWidget

  /** `ViewPager` scroll states. */
  const ScrollStateIdle: int := 0
  const ScrollStateDragging: int := 1
  const ScrollStateSettling: int := 2

  /** `DEFAULT_CHANGE_PAGE_TIME`, in milliseconds. */
  const DefaultChangePageTime: int := 5 * 1000

  /** An item view inflated from the layout `layoutId`. */
  class ItemView {
    const layoutId: int

    constructor (layoutId: int)
      ensures this.layoutId == layoutId
    {
      this.layoutId := layoutId;
    }
  }

  /** The part of `ViewPager` the banner drives: its adapter's page count and its current page. */
  class ViewPager {
    /** The adapter's `getCount()`, or 0 with no adapter. */
    var adapterCount: int
    var currentItem: int
    var offscreenLimit: int

    ghost predicate Valid()
      reads this
    {
      && 0 <= adapterCount
      && (adapterCount == 0 ==> currentItem == 0)
      && (0 < adapterCount ==> 0 <= currentItem < adapterCount)
    }

    constructor ()
      ensures Valid() && adapterCount == 0 && currentItem == 0
    {
      adapterCount := 0;
      currentItem := 0;
      offscreenLimit := 1;
    }

    /** `setAdapter`: a new adapter starts at page 0. */
    method SetAdapter(count: int)
      requires 0 < count
      modifies this`adapterCount, this`currentItem
      ensures Valid() && adapterCount == count && currentItem == 0
    {
      adapterCount := count;
      currentItem := 0;
    }

    method SetOffscreenPageLimit(limit: int)
      modifies this`offscreenLimit
      ensures offscreenLimit == limit
    {
      offscreenLimit := limit;
    }

    /**
     * `setCurrentItem`: without pages nothing happens; otherwise the page is
     * clamped into range, and `changed` says whether page listeners are told.
     */
    method SetCurrentItem(item: int) returns (changed: bool)
      requires Valid()
      modifies this`currentItem
      ensures Valid()
      ensures adapterCount == 0 ==> !changed && currentItem == old(currentItem)
      ensures 0 < adapterCount ==>
        currentItem == (if item < 0 then 0 else if item >= adapterCount then adapterCount - 1 else item)
      ensures changed <==> currentItem != old(currentItem)
    {
      if adapterCount <= 0 {
        return false;
      }
      var clamped := if item < 0 then 0 else if item >= adapterCount then adapterCount - 1 else item;
      changed := clamped != currentItem;
      currentItem := clamped;
    }
  }

  /** Why `build` throws. */
  datatype BuildError = NullItems | NoItemView | NullViewPager

  /** What `instantiateItem` hands back: the recycled view and the item index bound into it, if any. */
  datatype Instantiated = Instantiated(view: ItemView, boundItem: Option<int>)

  /** The exception `%` throws for an empty item list. */
  datatype AdapterError = DivideByZero

  class Builder<T> {
    var indicator: IndicatorView?
    var viewPager: ViewPager?
    var items: Option<seq<T>>
    var itemViewId: int
    var hasPageTransformer: bool
    var hasBindViewListener: bool
    var nextPageTime: int

    /** Every field starts at Java's default: null, 0 or false. */
    constructor ()
      ensures indicator == null && viewPager == null && items == None
      ensures itemViewId == 0 && !hasPageTransformer && !hasBindViewListener && nextPageTime == 0
    {
      indicator := null;
      viewPager := null;
      items := None;
      itemViewId := 0;
      hasPageTransformer := false;
      hasBindViewListener := false;
      nextPageTime := 0;
    }

    method SetItems(items: seq<T>) returns (r: Builder<T>)
      modifies this`items
      ensures r == this && this.items == Some(items)
    {
      this.items := Some(items);
      return this;
    }

    method SetPageIndicator(indicator: IndicatorView?) returns (r: Builder<T>)
      modifies this`indicator
      ensures r == this && this.indicator == indicator
    {
      this.indicator := indicator;
      return this;
    }

    method SetBindViewListener(present: bool) returns (r: Builder<T>)
      modifies this`hasBindViewListener
      ensures r == this && hasBindViewListener == present
    {
      hasBindViewListener := present;
      return this;
    }

    method SetItemViewId(id: int) returns (r: Builder<T>)
      modifies this`itemViewId
      ensures r == this && itemViewId == id
    {
      itemViewId := id;
      return this;
    }

    method SetViewPager(pager: ViewPager) returns (r: Builder<T>)
      modifies this`viewPager
      ensures r == this && viewPager == pager
    {
      viewPager := pager;
      return this;
    }

    method SetPageTransformer(present: bool) returns (r: Builder<T>)
      modifies this`hasPageTransformer
      ensures r == this && hasPageTransformer == present
    {
      hasPageTransformer := present;
      return this;
    }

    method SetRotatePageTime(time: int) returns (r: Builder<T>)
      modifies this`nextPageTime
      ensures r == this && nextPageTime == time
    {
      nextPageTime := time;
      return this;
    }

    /**
     * `build`: null items, an item view id of -1 or a null pager throw, checked
     * in that order; since the id defaults to 0, only an explicit -1 fails.
     */
    method Build() returns (r: Result<Banner<T>, BuildError>)
      requires viewPager != null ==> viewPager.Valid()
      modifies indicator
      ensures indicator != null ==>
        && indicator.currentPosition == old(indicator.currentPosition)
        && indicator.indicatorWidth == old(indicator.indicatorWidth)
        && indicator.indicatorLeft == old(indicator.indicatorLeft)
        && indicator.targetLeft == old(indicator.targetLeft)
        && indicator.measuredWidth == old(indicator.measuredWidth)
      ensures items.None? ==> r == Failure(NullItems)
      ensures items.Some? && itemViewId == -1 ==> r == Failure(NoItemView)
      ensures items.Some? && itemViewId != -1 && viewPager == null ==> r == Failure(NullViewPager)
      ensures r.Success? <==> items.Some? && itemViewId != -1 && viewPager != null
      ensures r.Failure? && indicator != null ==> indicator.count == old(indicator.count)
      ensures r.Success? ==>
        && fresh(r.value) && r.value.Valid()
        && r.value.items == items.value && r.value.itemViewId == itemViewId
        && r.value.viewPager == viewPager && r.value.indicator == indicator
        && r.value.hasBindViewListener == hasBindViewListener
        && r.value.hasPageTransformer == hasPageTransformer
        && r.value.nextPageTime == (if nextPageTime == 0 then DefaultChangePageTime else nextPageTime)
        && (indicator != null ==> indicator.count == |items.value|)
    {
      if items.None? {
        return Failure(NullItems);
      }
      if itemViewId == -1 {
        return Failure(NoItemView);
      }
      if viewPager == null {
        return Failure(NullViewPager);
      }
      var b := new Banner(this);
      return Success(b);
    }
  }

  class Banner<T> {
    var items: seq<T>
    var itemViewId: int
    var hasPageTransformer: bool
    var indicator: IndicatorView?
    var viewPager: ViewPager
    var hasBindViewListener: bool
    var nextPageTime: int
    /** `mCacheViews`. */
    var cacheViews: seq<ItemView>
    /** How many runs of the advance task the handler holds. */
    var pendingTasks: nat
    /** Whether `init` has registered the page change listener. */
    var listening: bool

    ghost predicate Valid()
      reads this, viewPager, indicator
    {
      && viewPager.Valid()
      && (indicator != null ==> indicator.count == |items|)
      && (listening ==> |cacheViews| == CacheSize && viewPager.adapterCount == IntMax)
      && (0 < pendingTasks ==> listening)
      && (forall i, j :: 0 <= i < j < |cacheViews| ==> cacheViews[i] != cacheViews[j])
    }

    /** `Banner(Builder)`: copy the settings, default a rotation time of 0, and size the indicator. */
    constructor (b: Builder<T>)
      requires b.items.Some? && b.viewPager != null && b.viewPager.Valid()
      modifies b.indicator
      ensures Valid() && !listening && pendingTasks == 0 && cacheViews == []
      ensures items == b.items.value && itemViewId == b.itemViewId && viewPager == b.viewPager
      ensures indicator == b.indicator && hasBindViewListener == b.hasBindViewListener
      ensures hasPageTransformer == b.hasPageTransformer
      ensures nextPageTime == (if b.nextPageTime == 0 then DefaultChangePageTime else b.nextPageTime)
      ensures b.indicator != null ==> b.indicator.count == |b.items.value|
      ensures b.indicator != null ==>
        && b.indicator.currentPosition == old(b.indicator.currentPosition)
        && b.indicator.indicatorWidth == old(b.indicator.indicatorWidth)
        && b.indicator.indicatorLeft == old(b.indicator.indicatorLeft)
        && b.indicator.targetLeft == old(b.indicator.targetLeft)
        && b.indicator.measuredWidth == old(b.indicator.measuredWidth)
    {
      items := b.items.value;
      itemViewId := b.itemViewId;
      hasPageTransformer := b.hasPageTransformer;
      indicator := b.indicator;
      viewPager := b.viewPager;
      hasBindViewListener := b.hasBindViewListener;
      nextPageTime := if b.nextPageTime == 0 then DefaultChangePageTime else b.nextPageTime;
      cacheViews := [];
      pendingTasks := 0;
      listening := false;
      new;
      if indicator != null {
        indicator.SetCount(|items|);
      }
    }

    /**
     * `init`: refill the cache with six fresh item views, install the endless
     * adapter, start on the initial page (before the listener exists, so the
     * indicator is not moved) and listen to page changes.
     */
    method Init()
      requires Valid()
      modifies this`cacheViews, this`listening, viewPager
      ensures Valid() && listening
      ensures |cacheViews| == CacheSize
      ensures forall i :: 0 <= i < CacheSize ==> fresh(cacheViews[i]) && cacheViews[i].layoutId == itemViewId
      ensures viewPager.adapterCount == IntMax && viewPager.offscreenLimit == OffscreenLimit
      ensures viewPager.currentItem == InitialPage(IntMax, CacheSize)
      ensures JavaRem(viewPager.currentItem, |cacheViews|) == 0
    {
      cacheViews := [];
      var i := 0;
      while i < CacheSize
        invariant 0 <= i <= CacheSize && |cacheViews| == i
        invariant forall k :: 0 <= k < i ==> fresh(cacheViews[k]) && cacheViews[k].layoutId == itemViewId
        invariant forall k, l :: 0 <= k < l < i ==> cacheViews[k] != cacheViews[l]
      {
        var v := new ItemView(itemViewId);
        cacheViews := cacheViews + [v];
        i := i + 1;
      }
      viewPager.SetAdapter(IntMax);
      viewPager.SetOffscreenPageLimit(OffscreenLimit);
      var _ := viewPager.SetCurrentItem(InitialPage(IntMax, |cacheViews|));
      listening := true;
    }

    /**
     * `instantiateItem`: the page shows cache view `position % 6` and, with a
     * bind listener, item `position % items.size()`, which throws for no items.
     */
    method InstantiateItem(position: int) returns (r: Result<Instantiated, AdapterError>)
      requires Valid() && listening && 0 <= position < viewPager.adapterCount
      ensures r.Failure? <==> hasBindViewListener && |items| == 0
      ensures r.Success? ==> r.value.view == cacheViews[JavaRem(position, CacheSize)]
      ensures r.Success? ==>
        r.value.boundItem == if hasBindViewListener then Some(JavaRem(position, |items|)) else None
      ensures r.Success? && r.value.boundItem.Some? ==> 0 <= r.value.boundItem.value < |items|
    {
      var slot := JavaRem(position, |cacheViews|);
      var v := cacheViews[slot];
      if hasBindViewListener {
        if |items| == 0 {
          return Failure(DivideByZero);
        }
        return Success(Instantiated(v, Some(JavaRem(position, |items|))));
      }
      return Success(Instantiated(v, None));
    }

    /**
     * `onPageSelected`: move the indicator to `position % items.size()`. The
     * indicator's count is the item count, so `moveTo` never throws; only an
     * empty item list fails, dividing by zero.
     */
    method OnPageSelected(position: int) returns (ok: bool)
      requires Valid() && 0 <= position
      modifies indicator
      ensures Valid()
      ensures indicator != null ==>
        && indicator.count == old(indicator.count)
        && indicator.indicatorWidth == old(indicator.indicatorWidth)
        && indicator.indicatorLeft == old(indicator.indicatorLeft)
        && indicator.measuredWidth == old(indicator.measuredWidth)
      ensures ok <==> indicator == null || 0 < |items|
      ensures indicator != null && ok ==>
        && indicator.currentPosition == JavaRem(position, |items|)
        && indicator.currentPosition < |items|
        && indicator.targetLeft == indicator.currentPosition as real * indicator.indicatorWidth
      ensures indicator != null && !ok ==>
        indicator.currentPosition == old(indicator.currentPosition) && indicator.targetLeft == old(indicator.targetLeft)
    {
      if indicator != null {
        if |items| == 0 {
          return false;
        }
        var moved := indicator.MoveTo(JavaRem(position, |items|));
        assert moved;
      }
      return true;
    }

    /** `onPageScrollStateChanged`: IDLE posts the advance task, DRAGGING removes every posted run. */
    method OnPageScrollStateChanged(state: int)
      requires Valid() && listening
      modifies this`pendingTasks
      ensures Valid()
      ensures state == ScrollStateIdle ==> pendingTasks == old(pendingTasks) + 1
      ensures state == ScrollStateDragging ==> pendingTasks == 0
      ensures state == ScrollStateSettling ==> pendingTasks == old(pendingTasks)
      ensures state != ScrollStateIdle && state != ScrollStateDragging ==> pendingTasks == old(pendingTasks)
    {
      if state == ScrollStateIdle {
        pendingTasks := pendingTasks + 1;
      } else if state == ScrollStateDragging {
        pendingTasks := 0;
      }
    }

    /**
     * One run of `mTask`: ask the pager for the next page; when the page
     * changes, the listener moves the indicator along.
     */
    method RunTask() returns (ok: bool)
      requires Valid() && 0 < pendingTasks
      modifies this`pendingTasks, viewPager`currentItem, indicator
      ensures Valid()
      ensures indicator != null ==>
        && indicator.count == old(indicator.count)
        && indicator.indicatorWidth == old(indicator.indicatorWidth)
        && indicator.indicatorLeft == old(indicator.indicatorLeft)
        && indicator.measuredWidth == old(indicator.measuredWidth)
      ensures pendingTasks == old(pendingTasks) - 1
      ensures viewPager.currentItem == if old(viewPager.currentItem) + 1 < IntMax then old(viewPager.currentItem) + 1
                                       else IntMax - 1
      ensures viewPager.currentItem == old(viewPager.currentItem) ==>
        ok && (indicator != null ==>
          indicator.currentPosition == old(indicator.currentPosition) && indicator.targetLeft == old(indicator.targetLeft))
      ensures viewPager.currentItem != old(viewPager.currentItem) ==>
        (ok <==> indicator == null || 0 < |items|)
      ensures viewPager.currentItem != old(viewPager.currentItem) && indicator != null && ok ==>
        && indicator.currentPosition == JavaRem(viewPager.currentItem, |items|)
        && indicator.targetLeft == indicator.currentPosition as real * indicator.indicatorWidth
    {
      pendingTasks := pendingTasks - 1;
      var changed := viewPager.SetCurrentItem(viewPager.currentItem + 1);
      ok := true;
      if changed {
        ok := OnPageSelected(viewPager.currentItem);
      }
    }

    /** `start`: run `init`, then post the first advance. */
    method Start()
      requires Valid()
      modifies this`cacheViews, this`listening, this`pendingTasks, viewPager
      ensures Valid() && listening
      ensures pendingTasks == old(pendingTasks) + 1
      ensures |cacheViews| == CacheSize
      ensures forall i :: 0 <= i < CacheSize ==> fresh(cacheViews[i]) && cacheViews[i].layoutId == itemViewId
      ensures viewPager.adapterCount == IntMax && viewPager.offscreenLimit == OffscreenLimit
      ensures viewPager.currentItem == InitialPage(IntMax, CacheSize)
    {
      Init();
      pendingTasks := pendingTasks + 1;
    }
  }
}
