# TelegramDemo chat list and ComponentFlow components, in Dafny

This project models the statable logic of an iOS demonstration app's chat-list screen and
four of its ComponentFlow building blocks, and proves what that logic promises:

- **The chat list's mock data source** (`ChatListViewModel`, file `chat_list_view_model.dfy`).
  A class holds the snapshot of `(roomid, title)` records and the counters `currentCount`,
  `updateCount` and `batchCount`. Its five mutators are `mockData`, `insertOneMockData`,
  `deleteLastItem`, `updateLastItem` and `batchUpdate`. Each method is proved equal to a pure
  state function. Lemmas about those functions give each mutator's exact effect. They also
  prove the invariant that room ids are pairwise distinct and below `currentCount` in every
  state reachable from the empty start.
- **List items** (`ChatListItems`, `chat_list_item.dfy`). `<` and `==` compare titles only.
  `stableId` comes from the id only. The title order is proved equal to the textbook
  first-difference definition and to be a strict total order on titles. On items it is a
  strict weak order: two items are incomparable exactly when they are `==`, which happens
  for items with equal titles whatever their ids.
- **The chat list view** (`ChatListNode`, `chat_list_node.dfy`). It swaps in a new snapshot and
  maps records to items. It turns the three outputs of the list-diffing routine into delete,
  insert and update records, and it guards the scroll target.
- **`ComponentTransition`** (`ComponentTransitions`, `transition.dfy`). This is an animation plus a
  typed user-data stack, with copy-returning builders. A `userData` lookup finds the last entry
  that casts to the requested type. The module also covers the curve dispatch that keeps `asTimingFunction` away from
  `.spring`.
- **`Button`** (`ButtonComponent`, `button.dfy`). It has field-copying builders and an equality that
  ignores closures. Its view has a highlight/hold state machine, and calls into closures are
  recorded in an effect log. Alpha selection and the minimum-size clamp are modelled too.
- **`HStack`** (`HStackComponent`, `hstack.dfy`). The three layout loops: offering the remaining
  width, measuring, and placing children left to right.
- **`RoundedRectangle`** (`RoundedRectangleComponent`, `rounded_rectangle.dfy`). Its equality, the
  default corner radius, the square image side and the evenly spaced gradient stops. It also
  models the branch on the colour count and the view's redraw decision.

`wrappers.dfy` holds `Option`. `geometry.dfy` holds `Size`, `Point`, `Rect`, `Floor` and the
truncating `Int(...)` conversion. CGFloat, Float and Double quantities are `real`, so there is no IEEE rounding.

Code that is not part of this model appears as parameters, with nothing assumed about them:

- The list-diffing routine `mergeListsStableWithUpdates` lives in the `MergeLists` module,
  which is not part of this model. It is a function-typed parameter (`ChatListNode.MergeLists`).
- The UUIDs that `UUID()` generates for new items are parameters.
- The size a child component reports in `HStack` is a parameter (`HStackComponent.ChildSizing`).
- The size the button's content view reports is a parameter.
- Whether `x as? T` succeeds depends on the program's class and protocol hierarchy. It is a
  relation `ComponentTransitions.Conforms` between the entry's dynamic type name and `T`,
  passed to the lookup, so subclasses and protocol conformers are covered.

Notes on how the code is modelled:

- The code has no reconciler of its own: `updateDataArray` calls `mergeListsStableWithUpdates`
  from `MergeLists`, which is a parameter here.
- `ChatListNode.swift:69` calls `ChatListItem(cellData:interaction:)`, and
  `ChatListItemNode.swift:147` reads `item.cellData`. Yet `ChatListItem.swift` declares neither
  that initialiser nor the field. The model adds `cellData` as a plain field that the
  initialiser stores. It carries over from `init(interaction:)` (`ChatListItem.swift:30-33`)
  that the id is a newly generated `UUID()` and that `title` keeps its declared default `""`.
  `ChatListNode.MappedItemsAllEqual` and `ChatListItems.NewItem`'s empty title rest on this
  assumption. The generated ids are parameters, so whether two snapshots share ids is left to
  the caller (`ChatListItems.FreshItemsEqualButDistinct` takes distinct ids as a premise).

## Model

| member | source | states |
|---|---|---|
| ChatListViewModel.Mocked | TelegramDemo/TelegramUI/ChatList/ChatListViewModel.swift:20-26 | mockData as a state function: the old records stay a prefix, 20 records are added, currentCount rises by 20, the other counters stay |
| ChatListViewModel.Inserted | TelegramDemo/TelegramUI/ChatList/ChatListViewModel.swift:28-32 | insertOneMockData as a state function: the old records stay a prefix, one record with room id old currentCount is added, currentCount rises by one, the other counters stay |
| ChatListViewModel.LastDeleted | TelegramDemo/TelegramUI/ChatList/ChatListViewModel.swift:34-38 | deleteLastItem as a state function: the result is a prefix of the old records, one shorter unless empty; the counters stay |
| ChatListViewModel.LastUpdated | TelegramDemo/TelegramUI/ChatList/ChatListViewModel.swift:40-47 | updateLastItem as a state function: same length, every room id kept, all but the last record kept, updateCount +1 exactly when non-empty, the other counters stay |
| ChatListViewModel.Batched | TelegramDemo/TelegramUI/ChatList/ChatListViewModel.swift:49-64 | batchUpdate as a state function: length 1 from 0 or 1 records and unchanged otherwise, the last record is the fresh one, currentCount +1, batchCount untouched |
| ChatListViewModel.MockRange | TelegramDemo/TelegramUI/ChatList/ChatListViewModel.swift:21-25 | the records built for counters from..from+count-1: count of them, the i-th with room id and title number from+i |
| ChatListViewModel.MockedAppendsTwenty | TelegramDemo/TelegramUI/ChatList/ChatListViewModel.swift:20-26 | mockData keeps the old records as a prefix and appends 20 records with room id k and title "title k" for k = old currentCount .. +19; currentCount rises by 20, the other counters stay |
| ChatListViewModel.InsertedAppendsOne | TelegramDemo/TelegramUI/ChatList/ChatListViewModel.swift:28-32 | insertOneMockData appends exactly the record for the old currentCount and increments currentCount; nothing else changes |
| ChatListViewModel.LastDeletedDropsLast | TelegramDemo/TelegramUI/ChatList/ChatListViewModel.swift:34-38 | deleteLastItem is a no-op on an empty array; otherwise it removes exactly the last element and keeps every earlier one; counters unchanged |
| ChatListViewModel.LastUpdatedRetitles | TelegramDemo/TelegramUI/ChatList/ChatListViewModel.swift:40-47 | updateLastItem is a no-op (counter included) on an empty array; otherwise same length, earlier elements kept, last keeps its room id and gets title "title u" for the old updateCount, which then rises by one |
| ChatListViewModel.BatchedCounts | TelegramDemo/TelegramUI/ChatList/ChatListViewModel.swift:49-64 | batchUpdate leaves length 1 when the old length is 0 or 1 and the same length otherwise; currentCount +1; updateCount +1 only when the old length is at least 2; batchCount untouched; the last record is the fresh one |
| ChatListViewModel.MockRangeIds | TelegramDemo/TelegramUI/ChatList/ChatListViewModel.swift:21-25 | the records mockData appends have distinct room ids in [from, from+count) |
| ChatListViewModel.MockedKeepsInv | TelegramDemo/TelegramUI/ChatList/ChatListViewModel.swift:20-26 | mockData keeps room ids distinct and below currentCount |
| ChatListViewModel.InsertedKeepsInv | TelegramDemo/TelegramUI/ChatList/ChatListViewModel.swift:28-32 | insertOneMockData keeps room ids distinct and below currentCount |
| ChatListViewModel.LastDeletedKeepsInv | TelegramDemo/TelegramUI/ChatList/ChatListViewModel.swift:34-38 | deleteLastItem keeps room ids distinct and below currentCount |
| ChatListViewModel.LastUpdatedKeepsInv | TelegramDemo/TelegramUI/ChatList/ChatListViewModel.swift:40-47 | updateLastItem copies the old room id, so ids stay distinct and below currentCount |
| ChatListViewModel.BatchedKeepsInv | TelegramDemo/TelegramUI/ChatList/ChatListViewModel.swift:49-64 | batchUpdate keeps room ids distinct and below currentCount |
| ChatListViewModel.ApplyKeepsInv | TelegramDemo/TelegramUI/ChatList/ChatListViewModel.swift:20-64 | every one of the five mutators keeps the invariant |
| ChatListViewModel.RunKeepsInv | TelegramDemo/TelegramUI/ChatList/ChatListViewModel.swift:20-64 | any sequence of mutator calls keeps the invariant |
| ChatListViewModel.ReachableInv | TelegramDemo/TelegramUI/ChatList/ChatListViewModel.swift:14-64 | from the empty start, whatever is called, room ids are pairwise distinct and each is below currentCount |
| ChatListViewModel.RunCountersMonotone | TelegramDemo/TelegramUI/ChatList/ChatListViewModel.swift:14-64 | currentCount and updateCount never decrease and batchCount never changes |
| ChatListViewModel.ViewModel.constructor | TelegramDemo/TelegramUI/ChatList/ChatListViewModel.swift:14-18 | counters start at 0, the array empty |
| ChatListViewModel.ViewModel.MockData | TelegramDemo/TelegramUI/ChatList/ChatListViewModel.swift:20-26 | the 20-step loop leaves the fields as the mockData state function says |
| ChatListViewModel.ViewModel.InsertOneMockData | TelegramDemo/TelegramUI/ChatList/ChatListViewModel.swift:28-32 | the fields become those of the insert state function |
| ChatListViewModel.ViewModel.DeleteLastItem | TelegramDemo/TelegramUI/ChatList/ChatListViewModel.swift:34-38 | the fields become those of the delete-last state function |
| ChatListViewModel.ViewModel.UpdateLastItem | TelegramDemo/TelegramUI/ChatList/ChatListViewModel.swift:40-47 | the fields become those of the update-last state function |
| ChatListViewModel.ViewModel.BatchUpdate | TelegramDemo/TelegramUI/ChatList/ChatListViewModel.swift:49-64 | the fields become those of delete-last, then update-last, then insert-one |
| ChatListItems.NewItem | TelegramDemo/TelegramUI/ChatList/ChatListItem.swift:30-35 | a new item has an empty title, the generated id and the given record |
| ChatListItems.TitleLess | TelegramDemo/TelegramUI/ChatList/ChatListItem.swift:14-16 | the title comparison holds exactly when the first title is a proper prefix of the second or is smaller at their first differing character |
| ChatListItems.TitleLessIrreflexive | TelegramDemo/TelegramUI/ChatList/ChatListItem.swift:14-16 | no title is lexicographically below itself |
| ChatListItems.TitleLessTransitive | TelegramDemo/TelegramUI/ChatList/ChatListItem.swift:14-16 | lexicographic title order is transitive |
| ChatListItems.TitleLessTrichotomy | TelegramDemo/TelegramUI/ChatList/ChatListItem.swift:14-20 | two titles are ordered one way, equal, or ordered the other way, and never both ways |
| ChatListItems.Less | TelegramDemo/TelegramUI/ChatList/ChatListItem.swift:14-16 | item `<` is the first-difference order of the titles; it implies different titles and excludes the reverse order |
| ChatListItems.Equal | TelegramDemo/TelegramUI/ChatList/ChatListItem.swift:18-20 | item `==` holds exactly when neither title is before the other in the first-difference order |
| ChatListItems.StableId | TelegramDemo/TelegramUI/ChatList/ChatListItem.swift:22-24 | the stable id is the item's id, with title and record playing no part |
| ChatListItems.ItemLessIsStrictOrder | TelegramDemo/TelegramUI/ChatList/ChatListItem.swift:14-16 | item `<` is irreflexive, transitive and asymmetric |
| ChatListItems.EqualIffUnordered | TelegramDemo/TelegramUI/ChatList/ChatListItem.swift:14-20 | `a == b` exactly when neither `a < b` nor `b < a` |
| ChatListItems.EqualIgnoresId | TelegramDemo/TelegramUI/ChatList/ChatListItem.swift:18-26 | `==` holds exactly when titles agree, whatever the ids and records |
| ChatListItems.StableIdIgnoresTitle | TelegramDemo/TelegramUI/ChatList/ChatListItem.swift:22-26 | stableId ignores the title and tells items apart exactly by id |
| ChatListItems.FreshItemsEqualButDistinct | TelegramDemo/TelegramUI/ChatList/ChatListItem.swift:18-35 | two freshly built items with different ids are `==` yet have different stable ids |
| ChatListItems.Selectable | TelegramDemo/TelegramUI/ChatList/ChatListItem.swift:100-102 | every item is selectable |
| ChatListItems.ApproximateHeight | TelegramDemo/TelegramUI/ChatList/ChatListItem.swift:104-106 | every item's approximate height is 70 |
| ChatListNode.ScrollTarget | TelegramDemo/TelegramUI/ChatList/ChatListNode.swift:49-56 | a scroll request exists exactly when an index is given and 0 < index < new count; it targets that index's bottom, animated, downward |
| ChatListNode.MapCellDataToItemArray | TelegramDemo/TelegramUI/ChatList/ChatListNode.swift:67-72 | one new item per record, same length, same order, each with its generated id |
| ChatListNode.MappedItemsAllEqual | TelegramDemo/TelegramUI/ChatList/ChatListNode.swift:67-72 | any two mapped items are `==`; the i-th item's stable id is the i-th generated id |
| ChatListNode.CreateChatListNodeViewTransition | TelegramDemo/TelegramUI/ChatList/ChatListNode.swift:74-95 | absent lists are diffed as empty; each delete index and each insert/update triple becomes one record with the same index, item and previous index, in order, no direction hint; the scroll request passes through; the stationary range is always nil |
| ChatListNode.ChatListNode.constructor | TelegramDemo/TelegramUI/ChatList/ChatListNode.swift:22-24 | the view starts with an empty snapshot |
| ChatListNode.ChatListNode.UpdateDataArray | TelegramDemo/TelegramUI/ChatList/ChatListNode.swift:42-61 | the snapshot becomes the argument; the records come from diffing the mapped old snapshot against the mapped new one; the scroll request is the guarded one; stationary range nil |
| ChatListNode.ChatListNode.ScrollToLastItem | TelegramDemo/TelegramUI/ChatList/ChatListNode.swift:97-101 | diffs the empty list against itself and asks to scroll to index count-1, with no guard |
| ComponentTransitions.IsImmediate | TelegramModules/ComponentFlow/Source/Base/Transition.swift:62-69 | isImmediate holds exactly for `.none` |
| ComponentTransitions.Make | TelegramModules/ComponentFlow/Source/Base/Transition.swift:147-149 | a new transition has the given animation and no user data |
| ComponentTransitions.Immediate | TelegramModules/ComponentFlow/Source/Base/Transition.swift:137 | `immediate` is immediate and has no user data |
| ComponentTransitions.EaseInOutTransition | TelegramModules/ComponentFlow/Source/Base/Transition.swift:139-141 | `easeInOut(d)` is `.curve(d, .easeInOut)`, not immediate |
| ComponentTransitions.SpringTransition | TelegramModules/ComponentFlow/Source/Base/Transition.swift:143-145 | `spring(d)` is `.curve(d, .spring)`, not immediate |
| ComponentTransitions.LastIndexOfType | TelegramModules/ComponentFlow/Source/Base/Transition.swift:105-112 | the reversed search finds nothing exactly when no entry casts to the type, and otherwise the position of the topmost entry that does |
| ComponentTransitions.UserData | TelegramModules/ComponentFlow/Source/Base/Transition.swift:105-112 | `userData(T)` is nil exactly when no entry casts to T, and otherwise the value of the most recently pushed entry that casts to T |
| ComponentTransitions.WithUserData | TelegramModules/ComponentFlow/Source/Base/Transition.swift:114-118 | pushes the entry on top and keeps the animation |
| ComponentTransitions.WithAnimation | TelegramModules/ComponentFlow/Source/Base/Transition.swift:120-124 | replaces only the animation |
| ComponentTransitions.WithAnimationIfAnimated | TelegramModules/ComponentFlow/Source/Base/Transition.swift:126-135 | an immediate transition comes back unchanged; any other behaves as withAnimation |
| ComponentTransitions.UserDataAfterPush | TelegramModules/ComponentFlow/Source/Base/Transition.swift:105-118 | right after pushing a value that casts to T (for instance one of type T), `userData(T)` returns it |
| ComponentTransitions.UserDataOtherTypeUnchanged | TelegramModules/ComponentFlow/Source/Base/Transition.swift:105-118 | pushing a value that does not cast to T (neither T nor a subtype or conformer) does not change what `userData(T)` finds |
| ComponentTransitions.AnimationChangesKeepUserData | TelegramModules/ComponentFlow/Source/Base/Transition.swift:105-135 | neither animation builder changes any user-data lookup |
| ComponentTransitions.AsTimingFunction | TelegramModules/ComponentFlow/Source/Base/Transition.swift:48-59 | `.easeInOut` becomes the named ease-in-ease-out function, `.linear` the named linear one, and `.custom(a, b, c, d)` the control points a, b, c, d in order; never the spring name; `.spring` is excluded by the precondition the source enforces with preconditionFailure |
| ComponentTransitions.LayerTiming | TelegramModules/ComponentFlow/Source/Base/Transition.swift:20-30 | a spring curve gets the spring timing name and no media timing function; any other gets ease-in-ease-out and its asTimingFunction, so the spring failure is unreachable from here |
| ComponentTransitions.SlideTiming | TelegramModules/ComponentFlow/Source/Base/Transition.swift:93-95 | `Curve.slide` is the custom curve (0.33, 0.52, 0.25, 0.99); a layer animates it with a basic animation whose timing function has exactly those control points |
| ButtonComponent.NewButton | TelegramModules/ComponentFlow/Source/Components/Button.swift:15-32 | the public init sets no minimum size, no tag, no hold action, exclusive, and the given fields |
| ButtonComponent.NewDefaultButton | TelegramModules/ComponentFlow/Source/Components/Button.swift:15-32 | the public init with its defaults: enabled, automatic highlight, no highlighted action, plus the other init guarantees |
| ButtonComponent.MinSize | TelegramModules/ComponentFlow/Source/Components/Button.swift:56-68 | changes only minSize and copies every other field |
| ButtonComponent.WithIsExclusive | TelegramModules/ComponentFlow/Source/Components/Button.swift:70-82 | changes only isExclusive and copies every other field |
| ButtonComponent.WithHoldAction | TelegramModules/ComponentFlow/Source/Components/Button.swift:85-97 | changes only holdAction and copies every other field |
| ButtonComponent.Tagged | TelegramModules/ComponentFlow/Source/Components/Button.swift:99-111 | changes only the tag and copies every other field |
| ButtonComponent.Equal | TelegramModules/ComponentFlow/Source/Components/Button.swift:113-133 | `==` holds exactly when the buttons agree once the three closures are blanked out |
| ButtonComponent.WithHoldActionStaysEqual | TelegramModules/ComponentFlow/Source/Components/Button.swift:85-133 | `b.withHoldAction(h) == b`, and changing action or highlightedAction keeps `==` |
| ButtonComponent.EqualIsEquivalence | TelegramModules/ComponentFlow/Source/Components/Button.swift:113-133 | `==` is reflexive, symmetric and transitive |
| ButtonComponent.BuildersChangeEquality | TelegramModules/ComponentFlow/Source/Components/Button.swift:56-133 | minSize, withIsExclusive and tagged keep `==` exactly when the value was already there |
| ButtonComponent.ContentAlpha | TelegramModules/ComponentFlow/Source/Components/Button.swift:157-172 | alpha is 0.3 exactly when disabled, 0.6 exactly when enabled, auto-highlighting and highlighted, 1.0 otherwise |
| ButtonComponent.ButtonSize | TelegramModules/ComponentFlow/Source/Components/Button.swift:282-286 | the size is at least the content size and at least minSize where given, and each side equals one of them |
| ButtonComponent.HighlightEffects | TelegramModules/ComponentFlow/Source/Components/Button.swift:143-155 | the observer does nothing without a component or when the value does not change; on an actual change it emits the alpha for the new value exactly when highlighting is automatic, first, then the highlighted-action call with the new value exactly when there is a slot, and nothing else |
| ButtonComponent.OneActionPerTouch | TelegramModules/ComponentFlow/Source/Components/Button.swift:143-155 | a counting fact about an effect log in five parts (before, highlight, hold, unhighlight, pressed): when the two highlight parts hold no `action` call and the hold and pressed parts hold one between them, the whole log has exactly one more `action` call than the part before |
| ButtonComponent.HighlightEffectsCallNoAction | TelegramModules/ComponentFlow/Source/Components/Button.swift:143-155 | the highlight observer never calls `action` |
| ButtonComponent.View.constructor | TelegramModules/ComponentFlow/Source/Components/Button.swift:174-187 | no component, not highlighted, no hold flag, no timer, nothing called |
| ButtonComponent.View.SetCurrentIsHighlighted | TelegramModules/ComponentFlow/Source/Components/Button.swift:143-155 | assigning the flag runs the observer: alpha refresh (when auto-highlighting) and highlightedAction call, only on an actual change with a component |
| ButtonComponent.View.UpdateAlpha | TelegramModules/ComponentFlow/Source/Components/Button.swift:157-172 | with a component, sets the alpha for the current highlight; without one, does nothing |
| ButtonComponent.View.Pressed | TelegramModules/ComponentFlow/Source/Components/Button.swift:207-213 | with the hold flag set, clears it and calls nothing; otherwise calls `action` once when a component is set |
| ButtonComponent.View.BeginTracking | TelegramModules/ComponentFlow/Source/Components/Button.swift:215-240 | highlights; the hold flag ends up set exactly when there is a hold action, in which case `action` is called at once and the hold timer scheduled |
| ButtonComponent.View.EndTracking | TelegramModules/ComponentFlow/Source/Components/Button.swift:256-263 | unhighlights (running the observer) and drops the hold timer |
| ButtonComponent.View.CancelTracking | TelegramModules/ComponentFlow/Source/Components/Button.swift:265-272 | unhighlights (running the observer) and drops the hold timer |
| ButtonComponent.View.TouchUpInside | TelegramModules/ComponentFlow/Source/Components/Button.swift:207-263 | a touch that begins and ends inside (beginTracking, endTracking, then pressed) calls `action` exactly once, hold action or not, and leaves the button unhighlighted with the hold flag clear and no timer |
| ButtonComponent.View.Update | TelegramModules/ComponentFlow/Source/Components/Button.swift:274-297 | returns the clamped size, stores the component, refreshes alpha, copies isEnabled/isExclusive and centres the content frame (floored, non-negative origin) |
| ButtonComponent.View.Matches | TelegramModules/ComponentFlow/Source/Components/Button.swift:197-205 | matches exactly when a component is set and its tag is that very object |
| HStackComponent.Equal | TelegramModules/ComponentFlow/Source/Components/HStack.swift:15-23 | `==` holds exactly when the items and the spacing are equal |
| HStackComponent.OriginXClosedForm | TelegramModules/ComponentFlow/Source/Components/HStack.swift:51-60 | child i's x is the sum of the earlier widths plus i spacings |
| HStackComponent.MaxHeightBounds | TelegramModules/ComponentFlow/Source/Components/HStack.swift:44-48 | the height fold is non-negative, bounds every child's height, and is 0 or some child's height |
| HStackComponent.LastChildEndsAtWidth | TelegramModules/ComponentFlow/Source/Components/HStack.swift:44-60 | with at least one child, the returned width is exactly where the last child ends |
| HStackComponent.VerticalOriginCentres | TelegramModules/ComponentFlow/Source/Components/HStack.swift:54 | each child's floored vertical origin keeps it inside the stack's height |
| HStackComponent.UpdateChildren | TelegramModules/ComponentFlow/Source/Components/HStack.swift:29-42 | children are sized in item order; child i is offered the available width less the earlier widths and spacings, and the full height |
| HStackComponent.MeasureChildren | TelegramModules/ComponentFlow/Source/Components/HStack.swift:44-49 | width is the sum of widths plus spacing times (count-1), so -spacing when empty; height is the largest child height, 0 when empty |
| HStackComponent.PlaceChildren | TelegramModules/ComponentFlow/Source/Components/HStack.swift:51-60 | child i's frame has x = earlier widths plus i spacings, y = floor((height - h_i) / 2), and its own size |
| HStackComponent.Body | TelegramModules/ComponentFlow/Source/Components/HStack.swift:25-63 | the whole body: offered sizes, reported sizes, the stack's size and every child's frame as above |
| RoundedRectangleComponent.WithColors | TelegramModules/ComponentFlow/Source/Components/RoundedRectangle.swift:20-26 | the designated init stores every argument |
| RoundedRectangleComponent.WithColor | TelegramModules/ComponentFlow/Source/Components/RoundedRectangle.swift:16-18 | the single-colour init gives a one-element colour list and horizontal direction |
| RoundedRectangleComponent.Equal | TelegramModules/ComponentFlow/Source/Components/RoundedRectangle.swift:28-45 | `==` holds exactly when all five fields agree |
| RoundedRectangleComponent.EffectiveCornerRadius | TelegramModules/ComponentFlow/Source/Components/RoundedRectangle.swift:52 | the given radius, or else a radius whose double fits both sides and equals one of them (half the smaller side) |
| RoundedRectangleComponent.SolidImageSide | TelegramModules/ComponentFlow/Source/Components/RoundedRectangle.swift:55 | the side is at least twice the radius and twice the stroke, and equals one of them |
| RoundedRectangleComponent.EvenStopsSpan | TelegramModules/ComponentFlow/Source/Components/RoundedRectangle.swift:87-91 | n stops, the first 0, the last 1, strictly ascending, all within [0, 1] |
| RoundedRectangleComponent.GradientLocations | TelegramModules/ComponentFlow/Source/Components/RoundedRectangle.swift:87-91 | the append loop yields the stops i/(n-1) |
| RoundedRectangleComponent.PositiveStroke | TelegramModules/ComponentFlow/Source/Components/RoundedRectangle.swift:65 | the stroke is used exactly when it is given and positive |
| RoundedRectangleComponent.SolidImage | TelegramModules/ComponentFlow/Source/Components/RoundedRectangle.swift:54-75 | the one-colour image: square of the solid side, caps Int(radius), an ellipse in the stroke colour or else the colour, and an inner ellipse exactly when the stroke is positive, filled with the colour when a stroke colour is given and cleared otherwise |
| RoundedRectangleComponent.GradientImage | TelegramModules/ComponentFlow/Source/Components/RoundedRectangle.swift:76-105 | the many-colour image: the available size, caps Int(radius), the colours with the i-th stop i/(n-1) for n colours (the stops `GradientLocations` computes, from 0 to 1), ending at the right edge when horizontal or the bottom edge when vertical, and, exactly when the stroke is positive, a clear-mode fill of the whole image rectangle; the stroke only sizes an unused inset path |
| RoundedRectangleComponent.Render | TelegramModules/ComponentFlow/Source/Components/RoundedRectangle.swift:52-105 | no image exactly for zero colours; otherwise caps Int(effective radius), and an ellipse exactly for one colour |
| RoundedRectangleComponent.RenderBranches | TelegramModules/ComponentFlow/Source/Components/RoundedRectangle.swift:52-105 | no image for zero colours; one colour gives a square image of the solid side; more give a gradient over the available size with stops from 0 to 1 |
| RoundedRectangleComponent.View.constructor | TelegramModules/ComponentFlow/Source/Components/RoundedRectangle.swift:47-48 | no stored component and no image |
| RoundedRectangleComponent.View.Update | TelegramModules/ComponentFlow/Source/Components/RoundedRectangle.swift:50-109 | returns the available size; never stores the component; redraws the image for any non-empty colour list whenever the stored component differs, and otherwise keeps the old image |

## Left out

- The list-diffing routine `mergeListsStableWithUpdates` is in the `MergeLists` module, which is not part of this model. It is an unconstrained parameter, so nothing is claimed about the order or completeness of the records it yields.
- `ChatListNode.updateListView` and `ListView.transaction` apply the records to the list view, which is not part of this model. The records are returned to the caller instead.
- `ChatListNode`'s interaction closures (`ChatListNodeInteraction`) and the node's `init` wiring are left out. They are callbacks with no state of their own.
- `ChatListItem.nodeConfiguredForParams`, `updateNode` and `selected` are left out: asynchronous node layout and callbacks.
- `ChatListItem.accessoryItem` and `headerAccessoryItem` are left out. They always return nil.
- The decimal rendering of room ids and titles is not modelled. A room id is the counter it is formatted from, and a title is the number after "title ".
- UUID generation is random, so generated ids are parameters. Uniqueness of generated UUIDs is assumed only where a lemma states it as a precondition.
- `ChatListItem(cellData:interaction:)` is not declared in `ChatListItem.swift`. `ChatListNode.MapCellDataToItemArray` assumes it behaves like `init(interaction:)`: a new `UUID()` and the default empty title. `ChatListNode.MappedItemsAllEqual` and `ChatListItems.NewItem` rest on that assumption.
- `ChatListItems.TitleLess`, `ChatListItems.Less` and `ChatListItems.Equal` compare titles character by character. Swift's `String` `<` and `==` use Unicode canonical equivalence, so "é" as one scalar equals "e" followed by U+0301 there but not here; normalisation is not modelled.
- The `set*`, `animate*` and `attachAnimation` methods of `ComponentTransition` are left out. They are Core Animation plumbing.
- `Curve.solve` and the `animationDurationFactor` drag coefficient are left out: floating-point easing and a private UIKit call.
- `ButtonComponent.View.BeginTracking` does not model the value returned by `super.beginTracking`, which comes from UIKit.
- The 0.5 s hold timer and the repeating 0.1 s timer that fire `holdAction` are left out: timing on the run loop. Only whether a timer is scheduled is kept.
- `ButtonComponent.View.UpdateAlpha` does not model the transition argument, which only animates the alpha change.
- The Button view's content host view, `makeView` and `update(view:...)` are left out. They are thin forwarders, and the content's own update is a parameter (its reported size).
- `HStackComponent.PlaceChildren` records each child's frame rather than the centre position passed to `.position`. The `centered(in:)` helper and the `.appear`/`.disappear` transitions are not part of this model.
- All drawing is left out: Core Graphics, image contexts, `stretchableImage`, and the case where the image context yields nil. The image is described by its size, cap widths and content.
- Default arguments are not separate members, except `ButtonComponent.NewDefaultButton`. Callers pass every argument. The defaults are: `gradientDirection` horizontal and `stroke`/`strokeColor` nil in `RoundedRectangle.init(colors:...)`; `stroke`/`strokeColor` nil in `init(color:...)`; `scrollToIndex` nil in `updateDataArray`, which is `UpdateDataArray` with `None`.
- The runtime trap of `Int(cornerRadius)` is not modelled: Swift stops the program for NaN, infinite values or values outside the 64-bit range, such as the radius of a nil `cornerRadius` with two infinite sides. Reals have no NaN or infinity, and `Geometry.TruncateToInt` is total and unbounded.
- CGFloat, Float and Double are modelled as `real`, without IEEE rounding. In particular, `delta * i` for the gradient stops is exactly `i / (n - 1)` here, the `Float` control points of `Curve.custom` (such as `Curve.slide`'s 0.33, 0.52, 0.25, 0.99) are exact, and animation durations (`Double`) are exact.
- `ButtonComponent.View.Matches` takes an object reference. `matches(tag: Any)` accepts any value and boxes it `as AnyObject`; a boxed value type is a fresh object that is never `===` the stored tag, so such tags never match. That case is not expressible with the model's `ObjectRef` parameter.
- The view-model counters `currentCount`, `updateCount` and `batchCount` are unbounded `int`s. Swift's `+= 1` traps at `Int.max`; that overflow is not modelled.
- ASImageNode, ChatListItemNode, ChatListViewController, TestSignalViewController and FPSMonitor are left out. They hold networking and caching, text layout, view-controller wiring, a signal demo and display-link timing.
