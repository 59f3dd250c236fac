# AnacoreKit core, modelled in Dafny

AnacoreKit is an iOS UI framework. This project models the parts of it that hold state and decide things:

- **Layout.** `JRAConstraintStruct` holds up to eight handles to layout constraints. The `UIView` layout helpers (`jraLayoutHookToAllSide`, `jraLayoutSet`, `jraLayoutCenter`, `jraLayoutAddWrapper`) create and activate those constraints.
- **Cards.**
  - `JRACard` is a vertical base stack of rows, each row registered under a string key.
  - `JRABaseCard` is a card with a rebuilt header row and divider row.
  - `JRADivider` is a line whose thickness is one tracked size constraint.
  - `JRATextField` is a text field on its own card, between side stacks that join the text-field row only while they hold views.
- **Table.** `JRARootDatasource` is the item list of a single-section table and the reloads it asks for.
- **Logging.** `JRADefaultLogEngine` is the event-flow logger, with its dispatch report.
- **Configuration.** `JRAConfigContainer` holds the configurations and accepts only one update.
- **Modals.** `JRAOverlay` shows and hides modals over a host view.
- **Animations.** `JRAAnimationHelper` provides the fade and move keyframe animations.

## How UIKit objects are represented

- **Views.** Each view is a `Views.View` heap object. The model keeps only what the core reads or writes: superview, horizontal hugging and compression priorities, text, placeholder and background. `superview` follows `addSubview` and `removeFromSuperview`; membership of a stack is the stack's own sequence of arranged views.
- **Composite views.** A composite view refers to its own view through `asView`.
- **Constraints.** A layout constraint is a `Constraints.Constraint` object with a constant and an active flag.
- **Stacks.** A stack view's arranged subviews are a sequence.
- **Console.** The console is the sequence of printed strings.
- **Overlay side effects.** The overlay records what it does, in order, in an `events` sequence: delegate calls, modal callbacks and layer animations. Animation completion blocks wait in a `pending` sequence. `Overlay.Complete` runs them one at a time, in any order.

## Model

| member | source | states |
|---|---|---|
| Constraints.ConstraintStruct.SetSpacing | AnacoreKit/framework/Models/JRAConstraintStruct.swift:22-38 | Each side constraint that exists and has a given argument takes it. Right and bottom take it negated. Other side constraints keep their constant. Center and size constraints and every active flag are untouched. |
| Constraints.Empty | AnacoreKit/framework/Models/JRAConstraintStruct.swift:16-17 | A new struct refers to no constraint. |
| LayoutHelper.HookToAllSide | AnacoreKit/framework/Service/JRALayoutHelper.swift:19-38 | Exactly the given sides get a new active constraint to the parent, right and bottom negated. No center or size constraint is created, and the handles are pairwise distinct. |
| LayoutHelper.SetSize | AnacoreKit/framework/Service/JRALayoutHelper.swift:47-58 | Exactly the given width and height become new active constant constraints. Every other field is empty. |
| LayoutHelper.Center | AnacoreKit/framework/Service/JRALayoutHelper.swift:67-78 | Exactly the given x and y offsets become new active center constraints, not negated. Every other field is empty. |
| LayoutHelper.AddWrapper | AnacoreKit/framework/Service/JRALayoutHelper.swift:100-123 | A fresh wrapper becomes the view's superview. All eight handles hold the given offsets relative to that wrapper: sides, center and size. |
| Divider.Divider.constructor | AnacoreKit/framework/UI/Misc/JRADivider.swift:30-41 | The divider stores axis, fatness and color and then runs `set()` once. Its thickness along the axis is one active constraint equal to fatness. Nothing tracks the other dimension. |
| Divider.Divider.Set | AnacoreKit/framework/UI/Misc/JRADivider.swift:48-61 | Only the old constraint of the current axis's dimension is deactivated and uninstalled. A new one equal to fatness is tracked and installed. A constraint of the other dimension stays installed. The background becomes the color. |
| Divider.Divider.SetFatness | AnacoreKit/framework/UI/Misc/JRADivider.swift:12-16 | The old thickness constraint is deactivated and a new one equals the new fatness. Axis and color are kept, and the background is the color. |
| Divider.Divider.SetAxis | AnacoreKit/framework/UI/Misc/JRADivider.swift:17-21 | The thickness moves to the new axis's dimension. Re-assigning the same axis deactivates the old thickness constraint. Switching axis deactivates nothing: the old dimension's constraint stays installed and active. Fatness and color are kept, and the background is the color. |
| Divider.Divider.SetColor | AnacoreKit/framework/UI/Misc/JRADivider.swift:22-26 | The background becomes the new color. The old thickness constraint is deactivated, and a new one of the same fatness is tracked. Nothing is tracked in the other dimension. |
| Card.RegistryAt | AnacoreKit/framework/UI/Card/JRACard.swift:30-31 | Under the card invariant, the i-th arranged wrapper is the wrapper of the i-th key's row. |
| Card.RegistryKeys | AnacoreKit/framework/UI/Card/JRACard.swift:30-31 | The listed keys are exactly the keys of `viewMap`. |
| Card.RegistryNoDup | AnacoreKit/framework/UI/Card/JRACard.swift:30-31 | No key and no wrapper occurs twice in the base stack. |
| Card.RegistryRemove | AnacoreKit/framework/UI/Card/JRACard.swift:166-172 | Removing a key's entry and its wrapper keeps the invariant. |
| Card.RegistryInsert | AnacoreKit/framework/UI/Card/JRACard.swift:120-126 | Inserting a new key and its new wrapper at the same index keeps the invariant. |
| Card.RegistryAdd | AnacoreKit/framework/UI/Card/JRACard.swift:120-126 | The same for `addRow`'s choice between insertion and append. |
| Card.RegistryUpdate | AnacoreKit/framework/UI/Card/JRACard.swift:145-159 | Changing a row's contents keeps the invariant when its wrapper stays. |
| Card.Card.constructor | AnacoreKit/framework/UI/Card/JRACard.swift:33-43 | A clear card whose base stack (spacing 10) is its subview and is hooked to all four sides with constant 0. It has no rows. |
| Card.Card.SetBackground | AnacoreKit/framework/UI/Card/JRACard.swift:54-57 | The card's background becomes the color. |
| Card.Card.SetRowSpacing | AnacoreKit/framework/UI/Card/JRACard.swift:64-67 | The base stack's spacing becomes the value; the rows are untouched. |
| Card.Card.SetMarginSpace | AnacoreKit/framework/UI/Card/JRACard.swift:79-85 | The base stack's margin constraints get `setSpacing` semantics. |
| Card.Card.RemoveRow | AnacoreKit/framework/UI/Card/JRACard.swift:166-172 | An unknown key changes nothing. Otherwise its wrapper leaves the base stack and its entry leaves the map, and the other rows keep their order. |
| Card.Card.AddRow | AnacoreKit/framework/UI/Card/JRACard.swift:106-130 | Any row under the key is dropped first. A new empty row with the given spacing, margins and distribution is inserted at `position` when the stack has more rows than that, otherwise appended. The new wrapper occurs once. The other rows are untouched. |
| Card.Card.AddViewTo | AnacoreKit/framework/UI/Card/JRACard.swift:145-159 | An unknown key changes nothing. Otherwise the view is appended for an index of -1 or less, or inserted at the index. Both of its horizontal priorities become the given one. |
| Card.Card.RemoveAllView | AnacoreKit/framework/UI/Card/JRACard.swift:175-181 | Afterwards there are no rows, no wrappers and an empty map. |
| Card.Card.DetachFromRow | AnacoreKit/framework/UI/TextField/JRATextField.swift:156-161 | Removing an arranged view from its superview takes it out of its row; nothing else changes. |
| BaseCard.WithHeader | AnacoreKit/framework/UI/Card/JRABaseCard.swift:54-65 | After a header rebuild, the header key and then the divider key are the last two rows. |
| BaseCard.WithHeaderIdempotent | AnacoreKit/framework/UI/Card/JRABaseCard.swift:54-65 | Rebuilding the header twice gives the same rows as once, so the reserved rows never pile up. |
| BaseCard.WithHeaderOnce | AnacoreKit/framework/UI/Card/JRABaseCard.swift:54-65 | After a rebuild each reserved key occurs exactly once and no key repeats. |
| BaseCard.NewCard | AnacoreKit/framework/UI/Card/JRABaseCard.swift:28-34 | A white card with margins 15 on every side and no rows. |
| BaseCard.BaseCard.constructor | AnacoreKit/framework/UI/Card/JRABaseCard.swift:17-34 | A white card with margins 15. The header label is empty. The divider is horizontal, 2 points thick, in the given primary colour. |
| BaseCard.BaseCard.AddHeader | AnacoreKit/framework/UI/Card/JRABaseCard.swift:54-65 | The rows become `WithHeader` of the old rows. The header row holds only the label and the divider row (bottom margin 5) only the divider. The label shows the text. Label and divider both hug and resist compression at low priority. The other rows are untouched. |
| BaseCard.BaseCard.AddCustomHeader | AnacoreKit/framework/UI/Card/JRABaseCard.swift:75-88 | As `AddHeader`, but the header row holds the given views in order, with spacing 10, fill distribution and no margins. Each view ends with the priority of its last entry. The divider row is as in `AddHeader`, and so are the divider's low priorities unless the divider is itself a header view. Only priorities of the header views change. |
| BaseCard.BaseCard.FillHeader | AnacoreKit/framework/UI/Card/JRABaseCard.swift:84-87 | The loop fills the empty header row with exactly the given views, in order, with their priorities. The row's other fields stay, and only the views' priorities change. |
| BaseCard.BaseCard.RemoveRows | AnacoreKit/framework/UI/Card/JRABaseCard.swift:55-56 | Both reserved rows are removed and the rest keep their order. |
| TextField.Side | AnacoreKit/framework/UI/TextField/JRATextField.swift:140-145 | A side stack is in the text-field row exactly when it holds views. |
| TextField.FieldRowShape | AnacoreKit/framework/UI/TextField/JRATextField.swift:140-197 | The text-field row always holds the field. The left stack comes before it and the right stack after it, each present exactly while it holds views. Nothing repeats. |
| TextField.LeftGrows | AnacoreKit/framework/UI/TextField/JRATextField.swift:140-145 | A view added to the left stack puts the stack at the front of the row only when the stack was empty. |
| TextField.RightGrows | AnacoreKit/framework/UI/TextField/JRATextField.swift:176-181 | A view added to the right stack puts the stack at the end of the row only when the stack was empty. |
| TextField.LeftEmptied | AnacoreKit/framework/UI/TextField/JRATextField.swift:156-161 | Taking the emptied left stack out of the row leaves the field and the right side. |
| TextField.RightEmptied | AnacoreKit/framework/UI/TextField/JRATextField.swift:192-197 | Taking the emptied right stack out of the row leaves the left side and the field. |
| TextField.FillFieldCard | AnacoreKit/framework/UI/TextField/JRATextField.swift:34-43 | The field card's one row holds the field at low hugging and compression priority. The top margin is 5 and the other margins are 0. |
| TextField.NewFieldCard | AnacoreKit/framework/UI/TextField/JRATextField.swift:34-43 | A new card with that one row, those margins and the field at low priority. |
| TextField.NewDivider | AnacoreKit/framework/UI/TextField/JRATextField.swift:76-79 | The text-field divider is horizontal, 2 points thick and black. |
| TextField.TextField.constructor | AnacoreKit/framework/UI/TextField/JRATextField.swift:81-105 | The base card sits on the text field and has rows title, field card, divider and info, in that order, each holding its one element at low hugging and compression priority. The field card holds the field at low priority, with margins 5, 0, 0, 0. The side stacks are empty, the title reads "Default header" and the info label is empty. The divider is horizontal, 2 thick and black. |
| TextField.TextField.Assemble | AnacoreKit/framework/UI/TextField/JRATextField.swift:81-105 | The parts the constructor installs, with the same facts about each. |
| TextField.TextField.NewBase | AnacoreKit/framework/UI/TextField/JRATextField.swift:95-104 | The base card sits on the text field and gets the four rows, each element at low priority. |
| TextField.TextField.SetupRows | AnacoreKit/framework/UI/TextField/JRATextField.swift:95-105 | The four base rows are appended in order, each with its element at low hugging and compression priority. |
| TextField.TextField.AppendTwoRows | AnacoreKit/framework/UI/TextField/JRATextField.swift:95-105 | Two rows are appended in order under new keys, each holding its view at low priority. The other rows are untouched. |
| TextField.TextField.SetTitle | AnacoreKit/framework/UI/TextField/JRATextField.swift:113-115 | The title label shows the text. |
| TextField.TextField.SetPlaceHolder | AnacoreKit/framework/UI/TextField/JRATextField.swift:123-125 | The field's placeholder is the text. |
| TextField.TextField.AddViewToLeft | AnacoreKit/framework/UI/TextField/JRATextField.swift:140-145 | The view is appended to the left stack. The first view inserts the stack in front of the field, with high priority. The text-field row stays consistent with the stacks. Only the row's views change. |
| TextField.TextField.AddViewToRight | AnacoreKit/framework/UI/TextField/JRATextField.swift:176-181 | The view is appended to the right stack. The first view appends the stack after the field, with high priority. Only the row's views change. |
| TextField.TextField.RemoveViewFromLeft | AnacoreKit/framework/UI/TextField/JRATextField.swift:156-161 | The view leaves the left stack. The stack is in the row exactly while it still holds views. Only the row's views change. |
| TextField.TextField.RemoveViewFromRight | AnacoreKit/framework/UI/TextField/JRATextField.swift:192-197 | The view leaves the right stack. The stack is in the row exactly while it still holds views. Only the row's views change. |
| RootDatasource.Updated | AnacoreKit/framework/UI/Table/Datasource/JRARootDatasource.swift:55-72 | A negative index puts the item first. An index past the end appends it. Any other index replaces that item and keeps all the others. |
| RootDatasource.ReloadFor | AnacoreKit/framework/UI/Table/Datasource/JRARootDatasource.swift:55-72 | No reload without the trigger. The single replaced row when an item is replaced. The whole table when the list grows. |
| RootDatasource.ReloadedRowHoldsItem | AnacoreKit/framework/UI/Table/Datasource/JRARootDatasource.swift:66-71 | A single-row reload names a valid row that now holds the item set. |
| RootDatasource.UpdatedKeeps | AnacoreKit/framework/UI/Table/Datasource/JRARootDatasource.swift:55-72 | The item set is in the list afterwards, and so is every old item except the replaced one. |
| RootDatasource.Datasource.constructor | AnacoreKit/framework/UI/Table/Datasource/JRARootDatasource.swift:26-32 | No items and no reloads yet; cells use the given identifier. |
| RootDatasource.Datasource.WithDefaultIdentifier | AnacoreKit/framework/UI/Table/Datasource/JRARootDatasource.swift:18-32 | No items and no reloads yet; cells use the default identifier `JRARootDatasource_Cell_ID`. |
| RootDatasource.Datasource.Set | AnacoreKit/framework/UI/Table/Datasource/JRARootDatasource.swift:55-72 | The list becomes `Updated` of the old list, and the reloads grow by `ReloadFor`. |
| RootDatasource.Datasource.SetDatas | AnacoreKit/framework/UI/Table/Datasource/JRARootDatasource.swift:81-86 | The list is replaced; a trigger reloads the whole table. |
| RootDatasource.Datasource.NumberOfRows | AnacoreKit/framework/UI/Table/Datasource/JRARootDatasource.swift:88-90 | One row per item, in any section. |
| RootDatasource.Datasource.ReloadTable | AnacoreKit/framework/UI/Table/Datasource/JRARootDatasource.swift:127-133 | No index paths reload the whole table; otherwise exactly the given rows, with the animation. |
| Logging.KeyedLineParts | AnacoreKit/framework/Service/JRALogging.swift:126-128 | A keyed line splits back into its key, the `:- ` separator and its data. |
| Logging.LinesAppend | AnacoreKit/framework/Service/JRALogging.swift:141-149 | Listing two runs of lines is listing their concatenation. |
| Logging.LinesSnoc | AnacoreKit/framework/Service/JRALogging.swift:145-147 | Each further logged line adds exactly its `-> line` entry at the end. |
| Logging.ReportGrows | AnacoreKit/framework/Service/JRALogging.swift:141-149 | A report grows by exactly one listed line per logged line, between header and footer. |
| Logging.ReportOfOneAction | AnacoreKit/framework/Service/JRALogging.swift:130-149 | A flow with one action reports its start line and the action, in order, between header and footer. |
| Logging.LogEngine.constructor | AnacoreKit/framework/Service/JRALogging.swift:119-120 | No flows and nothing printed. |
| Logging.LogEngine.Log | AnacoreKit/framework/Service/JRALogging.swift:122-124 | Prints the data as it is. |
| Logging.LogEngine.LogWith | AnacoreKit/framework/Service/JRALogging.swift:126-128 | Prints the keyed line. |
| Logging.LogEngine.StartEvent | AnacoreKit/framework/Service/JRALogging.swift:130-132 | The flow restarts with just its start line, whatever it held; the other flows are untouched. |
| Logging.LogEngine.EventLog | AnacoreKit/framework/Service/JRALogging.swift:134-139 | The action is appended to its flow. A flow that is not running is first started with the default description. |
| Logging.LogEngine.DispatchEvent | AnacoreKit/framework/Service/JRALogging.swift:141-149 | Prints exactly one report of the flow's lines; a flow that is not running lists none. The flow is kept. |
| Logging.LogEngine.ComposeReport | AnacoreKit/framework/Service/JRALogging.swift:142-148 | The string the loop builds equals `Report`: header, each line as `-> line`, footer. |
| Logging.LogEngine.EndEvent | AnacoreKit/framework/Service/JRALogging.swift:151-153 | The flow is forgotten and the other flows are untouched. |
| ConfigContainer.Container.constructor | AnacoreKit/framework/Configs/JRAConfigContainer.swift:44-56 | Holds exactly the given configurations and still accepts an update. |
| ConfigContainer.Container.BlockUpdate | AnacoreKit/framework/Configs/JRAConfigContainer.swift:63-65 | No later update is accepted. |
| ConfigContainer.Container.Update | AnacoreKit/framework/Configs/JRAConfigContainer.swift:70-88 | The first update replaces all six configurations and closes the container. A later one changes nothing and logs the rejection through the engine passed in. |
| ConfigContainer.BlockThenUpdate | AnacoreKit/framework/Configs/JRAConfigContainer.swift:63-88 | After a block, an update leaves every configuration as it was and logs exactly one rejection. |
| AnimationHelper.Fade | AnacoreKit/framework/Service/JRAAnimationHelper.swift:67-81 | A two-frame opacity animation that ends opaque when entering and transparent when leaving. It starts at the other end, eases in and out, and holds its end state. |
| AnimationHelper.MoveAnimation | AnacoreKit/framework/Service/JRAAnimationHelper.swift:83-103 | Translation along x for left and right, along y otherwise. `From` goes from rest to the offset and `To` goes back. |
| AnimationHelper.FadeLeaveReversesEnter | AnacoreKit/framework/Service/JRAAnimationHelper.swift:67-81 | Leaving plays entering's frames backwards. |
| AnimationHelper.MoveFromReversesTo | AnacoreKit/framework/Service/JRAAnimationHelper.swift:83-103 | `From` plays `To` backwards, on the same axis. |
| Overlay.DefaultInfo | AnacoreKit/framework/UI/Modals/Overlays/JRAOverlay.swift:33-46 | A modal's default configuration: end position, in from the top, out to the bottom, half a second each way, off. |
| Overlay.WithAlpha | AnacoreKit/framework/UI/Modals/Overlays/JRAOverlay.swift:93-100 | The same colour at the given opacity. |
| Overlay.WithAlphaIdempotent | AnacoreKit/framework/UI/Modals/Overlays/JRAOverlay.swift:93-100 | Setting the opacity again changes nothing, so re-applying the transparent style does not dim the colour further. |
| Overlay.PlacementFor | AnacoreKit/framework/UI/Modals/Overlays/JRAOverlay.swift:162-170 | Start pins top, left and right. End pins bottom, left and right. Center pins left and right and centres vertically. |
| Overlay.SlideDirections | AnacoreKit/framework/UI/Modals/Overlays/JRAOverlay.swift:173-176 | A modal slides in and out exactly when it has an entry direction. It slides in along the entry axis toward rest, and out along the leave axis away from rest. |
| Overlay.Marked | AnacoreKit/framework/UI/Modals/Overlays/JRAOverlay.swift:201-207 | A completion sets the on flag of the modal under the key, if any, and leaves the other modals alone. |
| Overlay.Overlay.constructor | AnacoreKit/framework/UI/Modals/Overlays/JRAOverlay.swift:75-82 | Off, without host or modals. A transparent overlay dims the colour to 0.6 and a clear one has no colour. |
| Overlay.Overlay.SetBackground | AnacoreKit/framework/UI/Modals/Overlays/JRAOverlay.swift:93-100 | Transparent dims the background to 0.6; clear removes it. |
| Overlay.Overlay.SetStyle | AnacoreKit/framework/UI/Modals/Overlays/JRAOverlay.swift:52-56 | Assigning a style re-applies the background. |
| Overlay.Overlay.SetOn | AnacoreKit/framework/UI/Modals/Overlays/JRAOverlay.swift:105-107 | The host becomes the given view. |
| Overlay.Overlay.AddModal | AnacoreKit/framework/UI/Modals/Overlays/JRAOverlay.swift:118-124 | The key holds the new config, and a modal it held before is detached. |
| Overlay.Overlay.Place | AnacoreKit/framework/UI/Modals/Overlays/JRAOverlay.swift:162-170 | The constraints placing a modal are exactly those `PlacementFor` names, with right and bottom negated. |
| Overlay.Overlay.ShowOverlay | AnacoreKit/framework/UI/Modals/Overlays/JRAOverlay.swift:226-241 | Without a host it only logs. Otherwise the overlay joins the host and fades in between the will-load and did-load calls, and is on. |
| Overlay.Overlay.ShowModal | AnacoreKit/framework/UI/Modals/Overlays/JRAOverlay.swift:139-181 | Succeeds exactly when the key is known and there is a host; failures log their reason and change nothing else, not even the modal's superview. On success it opens the overlay if needed and places the modal on the host. An overlay that was already on stays where it was. It plays the entry and leaves marking to the completion. |
| Overlay.Overlay.Present | AnacoreKit/framework/UI/Modals/Overlays/JRAOverlay.swift:151-179 | The modal joins the host, its entry is played and one show completion is pending. |
| Overlay.Overlay.HideModal | AnacoreKit/framework/UI/Modals/Overlays/JRAOverlay.swift:193-219 | Succeeds exactly when the key is known; otherwise it logs. It plays the exit and leaves unmarking and detaching to the completion. |
| Overlay.Overlay.HideOverlay | AnacoreKit/framework/UI/Modals/Overlays/JRAOverlay.swift:248-269 | While off it only logs. While on it fades out and queues the overlay's completion. It then calls `hideModal` once for each modal marked as shown and for no other: the hidden keys have no repeats and are exactly the shown ones. After the overlay's completion, one hide completion per hidden key is pending. The events grow by the fade and then by each hidden modal's hide events, in that order. |
| Overlay.Overlay.Complete | AnacoreKit/framework/UI/Modals/Overlays/JRAOverlay.swift:155-261 | A show completion marks the modal on and leaves it where it is. A hide completion marks it off and detaches it. The overlay's completion turns it off and detaches it. |
| Overlay.Overlay.HideOne | AnacoreKit/framework/UI/Modals/Overlays/JRAOverlay.swift:263-267 | One loop step of `hideOverlay`: the key's hide completion is appended to those already pending, and its hide events to the events. |
| Overlay.Overlay.HideMarked | AnacoreKit/framework/UI/Modals/Overlays/JRAOverlay.swift:263-267 | The loop of `hideOverlay`. It hides each shown modal exactly once and no other. The pending completions and the events grow by one block per hidden key, in the same order. |
| Overlay.DonesSnoc | AnacoreKit/framework/UI/Modals/Overlays/JRAOverlay.swift:263-267 | Hiding one more key appends exactly its hide completion. |
| Overlay.HideEventsSnoc | AnacoreKit/framework/UI/Modals/Overlays/JRAOverlay.swift:193-219 | Hiding one more key appends exactly its hide events. |
| Overlay.HidingStep | AnacoreKit/framework/UI/Modals/Overlays/JRAOverlay.swift:263-267 | Hiding a key not yet hidden keeps the hidden keys free of repeats, and they stay the shown keys already handled. |
| Overlay.HiddenKeysOfDones | AnacoreKit/framework/UI/Modals/Overlays/JRAOverlay.swift:263-267 | The keys read back from the hide completions are the keys hidden, in order. |
| Overlay.HidingDone | AnacoreKit/framework/UI/Modals/Overlays/JRAOverlay.swift:263-267 | When the loop ends, the new completions name each shown key exactly once. |

## Left out

- **Not modelled:**
  - Auto Layout solving and rendering.
  - Fonts, corner radius and shadow.
  - The `UIStackView` axis, alignment and distribution beyond the stored value.
  - The real console (printing is the `output` sequence).
- **Singletons:**
  - `JRALogging.shared` and `JRASharedConfigContainer` are passed in as parameters: the overlay's logger, the divider colour of `BaseCard.BaseCard.constructor`, and the engine given to `Update`.
  - A user-supplied logging engine is represented by the default engine class.
- **Overlay delegate:** delegate calls are recorded as events whether or not a delegate is set.
- **Overlay completions:**
  - Completion blocks are explicit `Complete` steps that may run in any order.
  - `[weak self]` (a released overlay skipping its completion) is not modelled.
- **Overlay host:**
  - `setOn`'s default argument (the application's last window) is not modelled; the host is always given.
  - `showOverlay`'s bare `print()` after the missing-host message is an empty string appended to the same console sequence.
- **Datasource:**
  - The UIKit wiring is not modelled: `setup`, `cellForRowAt`, cell configuration, heights and `sendTargetEvent`.
  - Items typed `Any` are a type parameter.
  - `getTableCellIdentifier` is the constant `singleCellIdentifier` field.
  - The `target` and `tableView` arguments of `init` are not modelled; the reloads stand for the table view.
- **Card return values:** `JRACard.addRow` and the builder methods return the card for chaining, and the model's methods return nothing. The doc comment of `addRow` says it returns the key. `JRATextField` passes the card that `addRow` returns as the `key:` of `addViewTo` (JRATextField.swift:37-38, 101-104). The model uses the key given to `addRow` instead.
- **Card stack semantics:**
  - Adding a view that sits in another stack does not remove it from there.
  - Adding a view already arranged in the same row adds a second entry, while UIKit would move it.
- **Superview and stacks:** joining or leaving a stack's arranged views does not update the view's `superview`. Stack membership is held only in the stack's `arranged` sequence and in the rows' `views`.
- **Lazy header:** `JRABaseCard`'s `header` and `divider` are `lazy` (JRABaseCard.swift:17-26), so the divider colour is read from the shared configuration at first access. The model creates both when the card is created, with the colour passed in.
- **Log data:** the `data: Any` of `log(with:_:)` (JRALogging.swift:126) is a string, the text Swift's interpolation would print.
- **Hide duration:** `hideOverlay`'s default duration of 0.6 seconds is not modelled; `Overlay.Overlay.HideOverlay` always takes the duration as an argument.
- **Card.Card.AddViewTo:** requires an insertion index no larger than the row, because UIKit traps on a larger one.
- **TextField.TextField.RemoveViewFromLeft:** removes the view from the left stack only; UIKit's `removeFromSuperview` would also take it out of any other view.
- **TextField.TextField.RemoveViewFromRight:** the same restriction for the right stack.
- **TextField.TextField.AddViewToLeft:** requires that the view is not one of the side stacks, which the source never passes.
- **TextField.TextField.AddViewToRight:** the same requirement.
- **LayoutHelper.AddWrapper:** does not state that its eight handles are pairwise distinct. Callers that call `setSpacing` on the result get distinctness from `HookToAllSide` instead.
- **Constraints.ConstraintStruct.SetSpacing:** requires pairwise distinct handles. Every struct the helpers build has them, and a hand-built struct sharing one constraint between two fields is not modelled.
- **TextField.NewDivider:** does not restate the divider's constraint facts; `Divider.Divider.constructor` states them.
- **Divider.Divider.Set:** assigns the background before rebuilding the thickness, where the source does it after. No observer sees the order.
