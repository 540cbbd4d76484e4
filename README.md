# InputMethod widgets in Dafny

This project models the three stateful pieces of logic in the InputMethod demo app's two widget libraries, and proves properties of that model:

- The keyboard library's `CustomKeyboardManager` is a popup numeric keyboard for password entry. Each time the popup opens, it shuffles the ten digit keys in place. On each key press it edits the text field at the cursor. SHIFT toggles the case of the letter keys. Each press also decides whether a preview bubble appears. Losing or gaining focus hides or shows the popup.
- The banner library's `Banner` is a carousel that never ends. It pages over `Integer.MAX_VALUE` positions and maps each position onto six recycled item views and onto the data items with Java's `%`. A posted task moves it forward one page at a time. Dragging cancels the task, and going idle posts it again. A `Builder` checks the banner's settings.
- The banner library's `IndicatorView` is the page indicator. It holds a count, a current position, a bar width and a bar offset. `moveTo` checks its bounds and `onMeasure` does a little width arithmetic.

Files and modules:

- `results.dfy`, module `Results`: `Option` and `Result`, used for Java nulls and thrown exceptions.
- `keytext.dfy`, module `KeyText`: Java text as UTF-16 code units (`Char16`), the `(char)` cast, case mapping, `String.contains` and `isLetter`.
- `keys.dfy`, module `Keys`: keys as (code, label) values, the shuffle as a function of the ten random draws, the SHIFT rewrite of letter keys, and the codes that never show a preview.
- `keyboard.dfy`, module `KeyboardManager`: the text edits, the text field, and the class `CustomKeyboardManager`. Its methods work on an `array<Key>` in place. The shuffle, SHIFT and preview methods are proved against the functions in `Keys`. The key-press method is proved against the text edits `DeleteBefore` and `InsertAt` and the cast `CharOfCode`, and its SHIFT arm against `Keys.ShiftAll`.
- `paging.dfy`, module `BannerPaging`: Java's remainder, cache slots, and the initial page.
- `indicator.dfy`, module `IndicatorWidget`: the class `IndicatorView`.
- `banner.dfy`, module `BannerWidget`: the classes `Builder` and `Banner`.

`banner.dfy` also holds two stand-ins for platform classes. They are not modelled from this repository's code:

- `ViewPager` keeps only what the banner relies on. `setAdapter` resets the page to 0. `setCurrentItem` clamps its argument to `[0, count - 1]`, does nothing when there are no pages, and tells the page listeners only when the page changes.
- `ItemView` is an inflated view.

The random draws of `java.util.Random` are a parameter `rand`. Its `i`-th entry is the value `nextInt(10 - i)` returned, so it lies in `[0, 10 - i)`. The handler's queue is a count of pending runs of the advance task. The indicator's widths are exact reals.

Three ways the model follows the code rather than what one might assume:

- `moveTo` accepts `pos == mCount`.
- A `Builder`'s item view id defaults to 0, so `build` rejects only an id set explicitly to -1.
- `isLetter` accepts the empty label and runs of letters such as `"abc"`, so SHIFT rewrites those keys too.

The initial page is 1073741820. It is a multiple of 6, so it shows cache view 0. Because `init` sets it before it registers the page listener, the indicator is not moved to its item `1073741820 % n`. It keeps the position it was constructed with, its `defaultPosition` attribute, since the banner's constructor only calls `setCount`. The indicator therefore starts out of step with the page exactly when that position differs from `1073741820 % n`, and it stays so until the first page change. With `n = 7` and a default position of 0 they differ; with a default position of 4 they agree.

## Model

| member | source | states |
|---|---|---|
| `KeyText.CharOfCode` | keyboard/src/main/java/com/kr/keyboard/CustomKeyboardManager.java:233 | `(char) primaryCode` is congruent to the code modulo 2^16, and equals it for codes in `[0, 65536)`. |
| `KeyText.LowerChar` | keyboard/src/main/java/com/kr/keyboard/CustomKeyboardManager.java:193 | Lower-casing one unit never yields an upper-case ASCII letter, and yields a lower-case one exactly when the unit was an ASCII letter of either case. |
| `KeyText.UpperChar` | keyboard/src/main/java/com/kr/keyboard/CustomKeyboardManager.java:196 | Upper-casing one unit never yields a lower-case ASCII letter, and yields an upper-case one exactly when the unit was an ASCII letter of either case. |
| `KeyText.Lower` | keyboard/src/main/java/com/kr/keyboard/CustomKeyboardManager.java:193 | `toLowerCase` keeps the length and leaves no upper-case ASCII letter. Its interplay with `Upper` is proved in `KeyText.LowerOfUpper`. |
| `KeyText.Upper` | keyboard/src/main/java/com/kr/keyboard/CustomKeyboardManager.java:196 | `toUpperCase` keeps the length and leaves no lower-case ASCII letter. It is idempotent by `Keys.UpperIdempotent`. |
| `KeyText.Alphabet` | keyboard/src/main/java/com/kr/keyboard/CustomKeyboardManager.java:206 | The constant string has 26 units, runs from 'a' to 'z', and each unit is one more than the one before it. |
| `KeyText.Contains` | keyboard/src/main/java/com/kr/keyboard/CustomKeyboardManager.java:207 | Definition of `String.contains`; it is tied both ways to an occurrence at an offset in `KeyText.ContainsIff`. |
| `KeyText.IsLetter` | keyboard/src/main/java/com/kr/keyboard/CustomKeyboardManager.java:205-208 | Definition of `isLetter`; its meaning for every label is proved in `KeyText.IsLetterIff` and its case invariance in `KeyText.IsLetterCaseInvariant`. |
| `KeyText.ContainsIff` | keyboard/src/main/java/com/kr/keyboard/CustomKeyboardManager.java:207 | The recursive `contains` holds exactly when the needle occurs at some offset of the haystack (both directions). |
| `KeyText.AlphabetOccursIff` | keyboard/src/main/java/com/kr/keyboard/CustomKeyboardManager.java:206-207 | A string occurs in "abc…z" exactly when it is a run of consecutive lower-case letters. |
| `KeyText.IsLetterIff` | keyboard/src/main/java/com/kr/keyboard/CustomKeyboardManager.java:205-208 | `isLetter(s)` holds exactly when `s.toLowerCase()` is a run of consecutive letters, the empty run included. |
| `KeyText.IsLetterSingle` | keyboard/src/main/java/com/kr/keyboard/CustomKeyboardManager.java:205-208 | A one-unit label is a letter exactly when it is an ASCII letter of either case. |
| `KeyText.IsLetterRuns` | keyboard/src/main/java/com/kr/keyboard/CustomKeyboardManager.java:205-208 | `isLetter` accepts "", "abc" and "AB". |
| `KeyText.IsLetterGap` | keyboard/src/main/java/com/kr/keyboard/CustomKeyboardManager.java:205-208 | `isLetter` rejects "ac", whose letters are not neighbours. |
| `KeyText.LowerOfUpper` | keyboard/src/main/java/com/kr/keyboard/CustomKeyboardManager.java:193-196 | Lower-casing after upper-casing, or twice, gives the plain lower-cased form. |
| `KeyText.IsLetterCaseInvariant` | keyboard/src/main/java/com/kr/keyboard/CustomKeyboardManager.java:191-197 | Changing a label's case never changes whether it passes `isLetter`, so SHIFT sees the same letter keys each time. |
| `Keys.Swap` | keyboard/src/main/java/com/kr/keyboard/CustomKeyboardManager.java:136-145 | Exchanging keys `i` and `j` keeps the list's length. That it permutes the first ten keys and leaves the rest is proved in `Keys.SwapPermutesDigits`. |
| `Keys.ShuffleFrom` | keyboard/src/main/java/com/kr/keyboard/CustomKeyboardManager.java:134-147 | Definition of the shuffle loop as a function of the draws; its permutation, its failure on short layouts and its success condition are proved in `Keys.ShufflePermutes`, `Keys.ShuffleFailsShort` and `Keys.ShuffleOkIff`. |
| `Keys.SwapPermutesDigits` | keyboard/src/main/java/com/kr/keyboard/CustomKeyboardManager.java:136-145 | A swap inside the first ten keys keeps their multiset and leaves later keys alone. |
| `Keys.ShufflePermutes` | keyboard/src/main/java/com/kr/keyboard/CustomKeyboardManager.java:134-147 | With at least ten keys the shuffle does not throw, the first ten keys are a permutation of the original ten (code, label) pairs, and every key from index 10 on is unchanged. |
| `Keys.ShuffleFailsShort` | keyboard/src/main/java/com/kr/keyboard/CustomKeyboardManager.java:134-136 | With fewer than ten keys some turn of the shuffle reads past the end of the list and throws. |
| `Keys.ShuffleOkIff` | keyboard/src/main/java/com/kr/keyboard/CustomKeyboardManager.java:134-147 | The shuffle completes exactly when the layout has at least ten keys. |
| `Keys.ShiftKey` | keyboard/src/main/java/com/kr/keyboard/CustomKeyboardManager.java:191-198 | Definition of SHIFT on one key; its effect on codes, labels and non-letter keys is proved in `Keys.ShiftKeyEffect`. |
| `Keys.ShiftAll` | keyboard/src/main/java/com/kr/keyboard/CustomKeyboardManager.java:186-200 | SHIFT on every key keeps the number of keys. Its double application is proved in `Keys.ShiftTwiceRestoresCodes` and `Keys.ShiftTwiceRestores`. |
| `Keys.ShiftKeyEffect` | keyboard/src/main/java/com/kr/keyboard/CustomKeyboardManager.java:191-199 | Going to upper case upper-cases a letter key's label and subtracts 32 from its code. Going back lower-cases it and adds 32. A letter key stays a letter key, and any other key is unchanged. |
| `Keys.ShiftTwiceRestoresCodes` | keyboard/src/main/java/com/kr/keyboard/CustomKeyboardManager.java:184-202 | Two toggles restore every key's code, whatever case its label was in. |
| `Keys.UpperIdempotent` | keyboard/src/main/java/com/kr/keyboard/CustomKeyboardManager.java:193-194 | Upper-casing an already upper-cased label changes nothing, so a second SHIFT to upper case would leave the labels alone. |
| `Keys.ShiftMatchesCase` | keyboard/src/main/java/com/kr/keyboard/CustomKeyboardManager.java:184-202 | After a toggle every letter label is in the case the flipped flag names. |
| `Keys.ShiftTwiceRestores` | keyboard/src/main/java/com/kr/keyboard/CustomKeyboardManager.java:184-202 | When the letter labels are in the flag's case, two toggles restore every key exactly. |
| `Keys.SparseGet` | keyboard/src/main/java/com/kr/keyboard/CustomKeyboardManager.java:246 | Definition of `SparseIntArray.get` with default 0; the built list's contents are stated through it in `Keys.BuildUnPreviewList`. |
| `Keys.PreviewEnabled` | keyboard/src/main/java/com/kr/keyboard/CustomKeyboardManager.java:244-254 | Definition of `setPreview`'s nested branches; they reduce to "toggle selected and code not excluded" in `Keys.PreviewRule`. |
| `Keys.BuildUnPreviewList` | keyboard/src/main/java/com/kr/keyboard/CustomKeyboardManager.java:36-47 | The static list maps a code to a positive value exactly for -2, -5, -1, 32 and 48..57. |
| `Keys.PreviewRule` | keyboard/src/main/java/com/kr/keyboard/CustomKeyboardManager.java:244-254 | With that list, a press enables the preview exactly when the hide toggle is selected and the code is none of -2, -5, -1, 32, 48..57. |
| `KeyboardManager.DeleteBefore` | keyboard/src/main/java/com/kr/keyboard/CustomKeyboardManager.java:219-222 | Deleting `[start-1, start)` shortens the text by one and keeps the text before `start-1` and from `start` on. |
| `KeyboardManager.InsertAt` | keyboard/src/main/java/com/kr/keyboard/CustomKeyboardManager.java:232-234 | Inserting at `start` lengthens the text by one, puts the unit at `start` and keeps the text before and after it. |
| `KeyboardManager.InsertThenDelete` | keyboard/src/main/java/com/kr/keyboard/CustomKeyboardManager.java:219-234 | Typing a character and then pressing DELETE restores the text. |
| `KeyboardManager.EditField.constructor` | keyboard/src/main/java/com/kr/keyboard/CustomKeyboardManager.java:212-213 | A text field holds its text and a selection start in `[-1, length]`, where -1 means no selection. |
| `KeyboardManager.CustomKeyboardManager.constructor` | keyboard/src/main/java/com/kr/keyboard/CustomKeyboardManager.java:52-57 | A new manager holds the text field, starts lower-case with the popup hidden, and holds the no-preview list. |
| `KeyboardManager.CustomKeyboardManager.Create` | keyboard/src/main/java/com/kr/keyboard/CustomKeyboardManager.java:52-57 | Construction throws exactly when the text field is null. |
| `KeyboardManager.CustomKeyboardManager.Subscribe` | keyboard/src/main/java/com/kr/keyboard/CustomKeyboardManager.java:63-86 | `subscribe` loads the layout's keys, clears the hide toggle and enables the callbacks. It keeps the case flag and the popup state. |
| `KeyboardManager.CustomKeyboardManager.ClickHide` | keyboard/src/main/java/com/kr/keyboard/CustomKeyboardManager.java:78-83 | A click flips the hide toggle. |
| `KeyboardManager.CustomKeyboardManager.RandomNumberKeys` | keyboard/src/main/java/com/kr/keyboard/CustomKeyboardManager.java:129-149 | The in-place shuffle leaves the keys and the success flag that `ShuffleFrom` gives for the draws. It succeeds iff there are at least ten keys, and then the first ten are permuted and the rest unchanged. |
| `KeyboardManager.CustomKeyboardManager.SwapKeys` | keyboard/src/main/java/com/kr/keyboard/CustomKeyboardManager.java:136-145 | Exchanging the fields of keys `i` and `j` through temporaries swaps the two pairs as units, also when `i == j`. |
| `KeyboardManager.CustomKeyboardManager.ShiftEnglish` | keyboard/src/main/java/com/kr/keyboard/CustomKeyboardManager.java:184-202 | The loop rewrites the key array to `ShiftAll` of the old keys under the old flag, then flips `mIsCapital`. |
| `KeyboardManager.CustomKeyboardManager.OnKey` | keyboard/src/main/java/com/kr/keyboard/CustomKeyboardManager.java:211-236 | MODE_CHANGE changes nothing. DELETE removes the unit before the cursor when the text is non-empty and the cursor is past 0, and otherwise changes nothing. SHIFT toggles the case of the keys and the text is unchanged. DONE only hides the popup. Any other code inserts `(char) code` at the cursor, or throws when there is no selection. |
| `KeyboardManager.CustomKeyboardManager.SetPreview` | keyboard/src/main/java/com/kr/keyboard/CustomKeyboardManager.java:244-254 | After a press the preview flag is on iff the hide toggle is selected and the code is not in {-2, -5, -1, 32, 48..57}. |
| `KeyboardManager.CustomKeyboardManager.OnFocusChange` | keyboard/src/main/java/com/kr/keyboard/CustomKeyboardManager.java:89-103 | Gaining focus with the popup hidden shuffles the keys and then shows the popup, unless the shuffle threw. Gaining focus while it shows changes nothing. Losing focus leaves it hidden and the keys as they were. |
| `IndicatorWidget.TruncToInt` | banner/src/main/java/com/kr/banner/IndicatorView.java:76 | The `(int)` cast of a finite float truncates toward zero. |
| `IndicatorWidget.MeasuredWidth` | banner/src/main/java/com/kr/banner/IndicatorView.java:60-76 | Definition of the width `onMeasure` reports as written; `IndicatorWidget.IndicatorView.OnMeasure` is proved to report it, and `IndicatorWidget.MeasuredWidthExceedsSpec` shows it can exceed the spec. |
| `IndicatorWidget.IntendedMeasuredWidth` | banner/src/main/java/com/kr/banner/IndicatorView.java:66-73 | Definition of the corrected width; its bound and its agreement with the as-written width are proved in `IndicatorWidget.IntendedMeasuredWidthFits`. |
| `IndicatorWidget.MeasuredWidthExceedsSpec` | banner/src/main/java/com/kr/banner/IndicatorView.java:60-77 | As written, 5 slots of 30 report width 150 against an EXACTLY or AT_MOST spec of 100. |
| `IndicatorWidget.IntendedMeasuredWidthFits` | banner/src/main/java/com/kr/banner/IndicatorView.java:66-73 | The corrected width never exceeds an AT_MOST or EXACTLY spec. It equals the width as written when the row fits or the mode is UNSPECIFIED. |
| `IndicatorWidget.IndicatorView.constructor` | banner/src/main/java/com/kr/banner/IndicatorView.java:40-49 | Construction takes the count and the default position from the attributes, and the `(int)`-truncated bar width. |
| `IndicatorWidget.IndicatorView.SetCount` | banner/src/main/java/com/kr/banner/IndicatorView.java:90-93 | `setCount` replaces the count only. The position may end up above the new count. |
| `IndicatorWidget.IndicatorView.MoveTo` | banner/src/main/java/com/kr/banner/IndicatorView.java:97-115 | `moveTo(pos)` throws iff `pos < 0` or `pos > mCount`, so `pos == mCount` is accepted. Otherwise the position becomes `pos`, the count is unchanged, and the slide animation aims at `pos * mIndicatorWidth`. |
| `IndicatorWidget.IndicatorView.OnLayout` | banner/src/main/java/com/kr/banner/IndicatorView.java:81-83 | Layout puts the bar at `mCurrentPosition * mIndicatorWidth`. |
| `IndicatorWidget.IndicatorView.OnMeasure` | banner/src/main/java/com/kr/banner/IndicatorView.java:53-78 | In every mode the reported width is the truncated `mCount * mIndicatorWidth` from before any rescale. Under AT_MOST/EXACTLY with a too-wide row, the width becomes `specSize / mCount`, so `mCount` bars fill the spec exactly. Otherwise the width is unchanged. |
| `BannerPaging.JavaRem` | banner/src/main/java/com/kr/banner/Banner.java:99 | Java's `%` of a non-negative position by a positive size lies in `[0, size)` and agrees with the mathematical remainder. For a negative position it lies in `(-size, 0]`. |
| `BannerPaging.SlotsDistinctWithin` | banner/src/main/java/com/kr/banner/Banner.java:80-116 | Distinct pages fewer than six apart use distinct cache views. With offscreen limit 2, the at most six pages alive during a one-page move therefore never share a view. |
| `BannerPaging.SlotPeriodic` | banner/src/main/java/com/kr/banner/Banner.java:99 | Pages a whole cache length apart use the same cache view. |
| `BannerPaging.InitialPage` | banner/src/main/java/com/kr/banner/Banner.java:117 | `max/2 - max/2 % size` is non-negative, at most `max/2`, less than `size` below `max/2`, and divisible by `size` (cache view 0). |
| `BannerPaging.InitialPageValue` | banner/src/main/java/com/kr/banner/Banner.java:117 | For `Integer.MAX_VALUE` and 6 views the first page is 1073741820, below the adapter count. |
| `BannerWidget.ItemView.constructor` | banner/src/main/java/com/kr/banner/Banner.java:82 | An inflated view records the layout it was inflated from. |
| `BannerWidget.Builder.constructor` | banner/src/main/java/com/kr/banner/Banner.java:187-195 | A new builder has null references, no items, view id 0 and rotation time 0. |
| `BannerWidget.Builder.SetItems` | banner/src/main/java/com/kr/banner/Banner.java:198-201 | Sets the items and returns the same builder. |
| `BannerWidget.Builder.SetPageIndicator` | banner/src/main/java/com/kr/banner/Banner.java:203-206 | Sets the indicator, which may be null, and returns the same builder. |
| `BannerWidget.Builder.SetBindViewListener` | banner/src/main/java/com/kr/banner/Banner.java:208-211 | Records whether a bind listener is present and returns the same builder. |
| `BannerWidget.Builder.SetItemViewId` | banner/src/main/java/com/kr/banner/Banner.java:213-216 | Sets the item view id and returns the same builder. |
| `BannerWidget.Builder.SetViewPager` | banner/src/main/java/com/kr/banner/Banner.java:218-221 | Sets the pager and returns the same builder. |
| `BannerWidget.Builder.SetPageTransformer` | banner/src/main/java/com/kr/banner/Banner.java:224-227 | Records whether a page transformer is present and returns the same builder. |
| `BannerWidget.Builder.SetRotatePageTime` | banner/src/main/java/com/kr/banner/Banner.java:229-232 | Sets the rotation time and returns the same builder. |
| `BannerWidget.Builder.Build` | banner/src/main/java/com/kr/banner/Banner.java:234-248 | `build` throws for null items, then for view id -1, then for a null pager, and succeeds otherwise. It leaves the indicator's count alone on failure. On success the banner holds the builder's items, view id, pager, indicator, bind-listener and page-transformer flags, a rotation time of 0 becomes 5000 ms, and the indicator's count is the item count. The indicator's position, widths and targets never change. |
| `BannerWidget.Banner.constructor` | banner/src/main/java/com/kr/banner/Banner.java:58-77 | Copies the builder's settings and turns a rotation time of 0 into 5000 ms while keeping any other. A present indicator gets the item count as its count, and its position, bar width, offset, target and measured width stay as they were. Nothing is cached, posted or listening yet. |
| `BannerWidget.Banner.Init` | banner/src/main/java/com/kr/banner/Banner.java:79-117 | Afterwards the cache holds exactly six distinct fresh views of the item layout. The adapter count is `Integer.MAX_VALUE`, the offscreen limit is 2, and the current page is the initial page, which uses cache view 0. |
| `BannerWidget.Banner.InstantiateItem` | banner/src/main/java/com/kr/banner/Banner.java:98-107 | Page `p` shows cache view `p % 6`. With a bind listener it binds item `p % n`, which lies in `[0, n)`, and it throws iff `n == 0`. |
| `BannerWidget.Banner.OnPageSelected` | banner/src/main/java/com/kr/banner/Banner.java:125-131 | `onPageSelected(p)` moves a present indicator to `p % n`. That index is below the indicator's count `n`, so `moveTo` never throws. Only an empty item list fails, dividing by zero, and then the indicator is untouched. The indicator's count, bar width, offset and measured width never change. |
| `BannerWidget.Banner.OnPageScrollStateChanged` | banner/src/main/java/com/kr/banner/Banner.java:134-147 | IDLE posts one more advance, DRAGGING removes every pending advance, and SETTLING or any other state changes nothing. |
| `BannerWidget.Banner.RunTask` | banner/src/main/java/com/kr/banner/Banner.java:44-49 | One run consumes a pending advance and sets the page to the old page + 1, clamped below `Integer.MAX_VALUE`. When the page changes, the indicator moves to the new page's item and its target is that slot; only an empty item list fails. When the page does not change, the run succeeds and the indicator is untouched. The offscreen limit, the adapter count and the indicator's count, bar width, offset and measured width never change. |
| `BannerWidget.Banner.Start` | banner/src/main/java/com/kr/banner/Banner.java:179-182 | `start` runs `init` and then posts exactly one advance. Afterwards the cache holds six fresh views of the item layout, the adapter count is `Integer.MAX_VALUE`, the offscreen limit is 2 and the page is the initial page. The items, view id, flags, rotation time, indicator and pager are unchanged. |

## Findings

| source | as written | input that shows it | evidently intended | confidence | as-written member | corrected member |
|---|---|---|---|---|---|---|
| banner/src/main/java/com/kr/banner/IndicatorView.java:68-72 | `result = specSize` is always overwritten by `result = defaultWidth`, so an AT_MOST or EXACTLY width wider than the spec is reported anyway | `mCount` 5, `mIndicatorWidth` 30, EXACTLY spec 100: reports 150 | report `specSize` when the row does not fit (the bars are already rescaled to fill it) | medium, not executed | `IndicatorWidget.MeasuredWidthExceedsSpec` (about `IndicatorWidget.IndicatorView.OnMeasure`) | `IndicatorWidget.IntendedMeasuredWidthFits` (about `IndicatorWidget.IntendedMeasuredWidth`) |

The class method `IndicatorView.OnMeasure` keeps the behaviour as written, because it models this repository's view. No other member reads the measured width.

## Left out

- The popup window configuration in `initWindow` is left out: it only sets window flags, the animation, the gravity and the layout size.
- `forbidDefaultSoftKeyboard` is left out: it is a reflective call into the platform that swallows its exceptions.
- Layout inflation, `findViewById`, `setContentView`, `setKeyboard` and `Log.d` are left out. The keyboard view is reduced to its preview flag, and the popup dialog to a showing flag.
- `onRelease`, `onText` and the four swipe callbacks are empty in the source and are not modelled.
- `java.util.Random` is left out: its draws are a parameter, and nothing is claimed about their distribution.
- `KeyText.LowerChar`, `KeyText.UpperChar`: do not model Java's full Unicode case mapping (for example the Kelvin sign lower-cases to 'k'); only ASCII letters change case.
- `Keys.ShiftKey`: key codes are unbounded integers, so the 32-bit wrap of `codes[0] ± 32` at the extremes of `int` is not modelled.
- `KeyboardManager.CustomKeyboardManager.RandomNumberKeys`: keys are values in an array, so two list entries that are the same `Key` object are not modelled, and only `codes[0]` of each key is kept.
- `KeyboardManager.CustomKeyboardManager.OnKey`: only the selection start is kept. After an edit the cursor follows the edit, the way Android moves the selection in an `Editable`. `getText()` is taken to be non-null.
- `KeyboardManager.CustomKeyboardManager.OnFocusChange`: when the shuffle throws, the exception leaves the listener in Java. The model instead reports the popup as not shown.
- `KeyboardManager.CustomKeyboardManager.constructor`: the static `UN_PREVIEW_LIST` is built once per manager rather than once per class load.
- `IndicatorWidget.IndicatorView.MoveTo`: states only the animation's target and the position. The animated intermediate offsets, the cancelling of a running animation, `invalidate` and `onDraw` are left out.
- `IndicatorWidget.IndicatorView.OnMeasure`: models only the width. It uses exact reals in place of float rounding, the `(int)` cast's saturation for huge values is not modelled, and the height is left out.
- `IndicatorWidget.IndicatorView.constructor`: the attribute values come in as parameters, because reading the `TypedArray` is resource lookup. The one-argument constructor, which skips `init`, is not modelled separately.
- The default `PageTransformer`'s scale and alpha math is left out: it is floating-point animation.
- `destroyItem` is left out: it computes the slot only for a log line and detaches the view from the platform container, and the container is not modelled. `container.addView` in `instantiateItem` is not modelled either.
- `Handler.postDelayed` timing is left out. The rotation time is stored, and a pending advance is a count.
- `BannerWidget.Banner`: the item list is taken as fixed after `build`. Java keeps the caller's `List` and reads its live size in `instantiateItem` and `onPageSelected`, but sets the indicator's count only once, in the constructor. A shared list that later changes size is not modelled, and neither is the `moveTo` throw that follows when it grows.
- `KeyboardManager.CustomKeyboardManager.Subscribe`: the newly inflated keyboard view's preview flag is the platform default, and the model promises nothing about it until the next `setPreview`.
- `BannerWidget.Banner.Start`: repeated calls register one more page listener each time. The model keeps a single listener, and it does not notify earlier listeners of the page reset in a repeated `init`.
- The scroll-state callbacks that the pager itself raises around a smooth scroll are driven from outside the model, through `OnPageScrollStateChanged`.
- `mContext` is left out: it only feeds inflation.
- `app/src/main/java/com/kr/inputmethod/InputMethodDemoActivity.java` is demo wiring with no logic of its own.
