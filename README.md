# Fleet console: a verified model of its page logic

This project models the client-side logic of the ANSCER Robotics fleet console, a React single-page app built on TanStack Router, and proves properties of that model in Dafny. It covers:

- the three configuration pages (fleet settings, automation settings and the workspace map editor);
- the login / sign-up page and the root route's authentication guard and logout;
- the fleet list, the data-table filter and the pagination bar;
- the robot status colour mappings and the contact form.

The Dafny code follows the shape of the source:

- Each page whose handlers update React state step by step is a `class`. Its fields are the page's state variables. Its handlers are `modifies this` methods whose postconditions give the complete new state.
- The pure parts are functions with lemmas about them:
  - the zod schemas;
  - the reorder arithmetic (JavaScript's `findIndex` and `splice`);
  - the map's click cycle and cell counts;
  - the filters, the route guard and the colour tables.
- Session storage and the `authStateChanged` window event are one shared object, `Session.SessionStorage`. The page logic reads it and writes it.
- The fleet settings page's local storage is a field of that page.
- zod's behaviour is modelled as follows:
  - A failed `parse` gives a list of issues, one per failing check, in schema order.
  - The sign-up schema's cross-field refinement runs after the field checks, and it runs even when they fail.
  - A string's `.min(n)` compares its `length`, which counts UTF-16 code units (`Forms.Utf16Length`), not code points.
  - Every page's `forEach` loop that fills the error map is `Forms.CollectFieldErrors`. It gives each field the message of its last issue.
- Everything the source leaves to the environment is a parameter:
  - the email-format check (`isEmail`);
  - the outcome of the contact post (`Contact.Response`);
  - the drag-and-drop ids;
  - the `redirect` query value;
  - the ids of new robots.

Modules: `Wrappers`, `Sequences`, `Forms`, `TaskOrder`, `ConfigureIndex`, `ConfigureAutomation`, `WorkspaceMap`, `Session`, `Login`, `RootRoute`, `Fleet`, `TableFilter`, `Pagination`, `RobotStatus`, `Contact`.

## Model

| member | source | states |
|---|---|---|
| Forms.LastMessage | tanstack-router-demo/src/routes/Configure/Index.tsx:173-178 | The error a field ends up with is the message of its last issue. The result is None exactly when no issue names the field. |
| Forms.Lookup | tanstack-router-demo/src/routes/Configure/Index.tsx:173-178 | Reading the error map: the result is Some exactly when the field has an entry, and it holds that entry. |
| Forms.CollectFieldErrors | tanstack-router-demo/src/routes/Configure/Index.tsx:173-178 | The `forEach` loop builds a map that gives every field the message of its last issue. No other field has an entry. |
| Forms.LastMessageAppend | tanstack-router-demo/src/routes/Configure/Index.tsx:174-177 | On two issue lists joined together, the later list's message for a field wins. If the later list has none, the earlier list's message stands. |
| Forms.IssueIf | tanstack-router-demo/src/routes/Configure/Index.tsx:41-59 | A field check that passes adds no issue. One that fails adds exactly one issue, on its own field. |
| Forms.LastMessageIssueIf | tanstack-router-demo/src/routes/Configure/Index.tsx:41-59 | A single field check reports its message on its own field and nothing on any other field. |
| Forms.Utf16Length | tanstack-router-demo/src/routes/Login.tsx:20 | zod's `.min(n)` compares the string's `length`, which counts UTF-16 code units. A code point above U+FFFF counts twice, so the length lies between the number of code points and twice that number. |
| Forms.Utf16LengthBmp | tanstack-router-demo/src/routes/Login.tsx:20 | A string with no code point above U+FFFF has as many UTF-16 code units as code points. |
| Forms.Utf16LengthOfEmoji | tanstack-router-demo/src/routes/Login.tsx:20 | Three emoji are three code points but six UTF-16 code units. |
| Sequences.Filter | tanstack-router-demo/src/routes/Fleet/index.tsx:27 | `Array.filter` is never longer than its input. It keeps exactly the elements that pass, each as often as in the input, and drops the rest. |
| Sequences.FilterSubsequence | tanstack-router-demo/src/routes/Fleet/index.tsx:27 | Filtering keeps the surviving elements in their original order. |
| Sequences.FilterKeepsAll | tanstack-router-demo/src/routes/Fleet/index.tsx:27 | When every element passes, the filter returns its input unchanged. |
| Sequences.FilterIdempotent | tanstack-router-demo/src/routes/Fleet/index.tsx:27 | Filtering twice with the same test equals filtering once. |
| Sequences.FilterSameTest | tanstack-router-demo/src/routes/table/index.tsx:26-28 | Two tests that agree on every element give the same result. |
| Sequences.SubsequenceLength | tanstack-router-demo/src/routes/table/index.tsx:26 | A subsequence is never longer than the sequence it comes from. |
| TaskOrder.FindIndex | tanstack-router-demo/src/routes/Configure/Index.tsx:143-148 | `findIndex` gives -1 exactly when a value is absent. Otherwise it gives the first position that holds it. |
| TaskOrder.SpliceStart | tanstack-router-demo/src/routes/Configure/Index.tsx:155-156 | The start position `splice` uses. A start in range is kept. A negative start counts back from the end. The result is clamped to the list's bounds. |
| TaskOrder.SpliceRemoveOne | tanstack-router-demo/src/routes/Configure/Index.tsx:155 | `splice(start, 1)` removes exactly the element at the normalised start, if there is one there. |
| TaskOrder.SpliceInsert | tanstack-router-demo/src/routes/Configure/Index.tsx:156 | `splice(start, 0, x)` inserts `x` at the normalised start and moves the rest one place right. |
| TaskOrder.MoveTask | tanstack-router-demo/src/routes/Configure/Index.tsx:154-156 | Definition: copy the list, `splice(oldIndex, 1)`, then `splice(newIndex, 0, active)`. It has no contract of its own. `TaskOrder.MoveTaskPlaces` and `TaskOrder.MoveByIdPlaces` constrain it. |
| TaskOrder.MoveTaskPlaces | tanstack-router-demo/src/routes/Configure/Index.tsx:154-156 | Moving the entry at `from` to `to` keeps the length and puts that entry at `to`. The other tasks keep their relative order. The multiset of tasks is unchanged. |
| TaskOrder.MoveByIdPlaces | tanstack-router-demo/src/routes/Configure/Index.tsx:142-157 | When both dragged ids are in the list, the dragged task ends at the target's original index. The result is a permutation of the list. A list without duplicates stays without duplicates. |
| TaskOrder.PermutationKeepsDistinct | tanstack-router-demo/src/routes/Configure/Index.tsx:154-156 | A permutation of a list without duplicates has no duplicates. |
| TaskOrder.UnguardedMoveDropsLast | tanstack-router-demo/src/routes/Configure/Index.tsx:143-156 | Without a presence check, an absent dragged id makes `splice(-1, 1)` remove the last task. The result is then not a permutation of the list. |
| TaskOrder.UnguardedMoveExample | tanstack-router-demo/src/routes/Configure/Index.tsx:143-156 | A concrete case: in the three-task list, dragging an unknown task over "Inspection" drops "Maintenance". |
| ConfigureIndex.ParseSucceedsIffValid | tanstack-router-demo/src/routes/Configure/Index.tsx:41-59 | `configSchema` accepts a configuration exactly when every rule holds. |
| ConfigureIndex.Valid | tanstack-router-demo/src/routes/Configure/Index.tsx:41-59 | Definition: the conjunction of the schema rules. It has no contract of its own. `ConfigureIndex.ParseSucceedsIffValid` proves the parse accepts exactly the configurations it holds of. |
| ConfigureIndex.FieldMessage | tanstack-router-demo/src/routes/Configure/Index.tsx:41-59 | Definition: each field's schema message, or None when that field passes. It has no contract of its own. `ConfigureIndex.SpeedLimitBounds`, `ConfigureIndex.ModeAndTaskRules` and `ConfigureIndex.ErrorsAreFieldMessages` constrain it. |
| ConfigureIndex.Issues | tanstack-router-demo/src/routes/Configure/Index.tsx:41-59 | Definition: the issue list of `configSchema.parse`, in field order. It has no contract of its own. `ConfigureIndex.ParseSucceedsIffValid` and `ConfigureIndex.ErrorsAreFieldMessages` constrain it. |
| ConfigureIndex.ErrorsAreFieldMessages | tanstack-router-demo/src/routes/Configure/Index.tsx:41-59 | After a failed parse, every field's error is exactly that field's own schema message. A passing field has no error. |
| ConfigureIndex.SpeedLimitBounds | tanstack-router-demo/src/routes/Configure/Index.tsx:54-57 | The speed passes on the closed range [0.5, 5]. Below it, the field fails with "Speed must be at least 0.5 m/s". Above it, with "Speed cannot exceed 5 m/s". |
| ConfigureIndex.ModeAndTaskRules | tanstack-router-demo/src/routes/Configure/Index.tsx:42-58 | Each mode field passes only if its value is one of its three listed values. An empty task list fails with "At least one task is required". |
| ConfigureIndex.DefaultConfigValid | tanstack-router-demo/src/routes/Configure/Index.tsx:65-72 | The default configuration satisfies every rule. |
| ConfigureIndex.Get | tanstack-router-demo/src/routes/Configure/Index.tsx:132-137 | Reading a field gives a value of that field's kind. |
| ConfigureIndex.With | tanstack-router-demo/src/routes/Configure/Index.tsx:134 | `{ ...prev, [name]: value }`: the named field takes the value and every other field is unchanged. |
| ConfigureIndex.InitialConfigFallback | tanstack-router-demo/src/routes/Configure/Index.tsx:107-117 | At load, a missing or unparseable stored value gives the default configuration. A stored configuration loads back exactly as it was saved. |
| ConfigureIndex.InitialConfig | tanstack-router-demo/src/routes/Configure/Index.tsx:107-117 | Definition: the stored configuration, or the default. It has no contract of its own. `ConfigureIndex.InitialConfigFallback` constrains it. |
| ConfigureIndex.ConfigPage.constructor | tanstack-router-demo/src/routes/Configure/Index.tsx:107-122 | The page starts from the stored configuration or the default, with no errors and no message. |
| ConfigureIndex.ConfigPage.HandleChange | tanstack-router-demo/src/routes/Configure/Index.tsx:132-137 | Only the named field changes, and only its error is cleared. The message is cleared and storage is untouched. |
| ConfigureIndex.ConfigPage.HandleDragEnd | tanstack-router-demo/src/routes/Configure/Index.tsx:139-159 | With no drop target, or a drop onto the dragged task itself, nothing changes. Otherwise `handleChange` sets `taskPriority` to the splice-based move. |
| ConfigureIndex.ConfigPage.HandleSave | tanstack-router-demo/src/routes/Configure/Index.tsx:161-191 | A valid configuration is written to storage and loads back as itself. Errors are cleared and the success message shows. An invalid one leaves storage alone. It gets one error per failing field, and the fix-errors message shows. |
| ConfigureIndex.ConfigPage.HandleReset | tanstack-router-demo/src/routes/Configure/Index.tsx:193-199 | The configuration and storage both hold the default, which is valid. Errors are cleared and the reset message shows. |
| ConfigureAutomation.ParseSucceedsIffValid | tanstack-router-demo/src/routes/Configure/automation.tsx:14-29 | `automationSchema` accepts the settings exactly when every rule holds. |
| ConfigureAutomation.Valid | tanstack-router-demo/src/routes/Configure/automation.tsx:14-29 | Definition: the conjunction of the schema rules. It has no contract of its own. `ConfigureAutomation.ParseSucceedsIffValid` proves the parse accepts exactly the settings it holds of. |
| ConfigureAutomation.FieldMessage | tanstack-router-demo/src/routes/Configure/automation.tsx:14-29 | Definition: each field's schema message, or None when that field passes. It has no contract of its own. `ConfigureAutomation.PrecisionAndTaskRules` and `ConfigureAutomation.ErrorsAreFieldMessages` constrain it. |
| ConfigureAutomation.Issues | tanstack-router-demo/src/routes/Configure/automation.tsx:14-29 | Definition: the issue list of `automationSchema.parse`, in field order. It has no contract of its own. `ConfigureAutomation.ParseSucceedsIffValid` and `ConfigureAutomation.ErrorsAreFieldMessages` constrain it. |
| ConfigureAutomation.ErrorsAreFieldMessages | tanstack-router-demo/src/routes/Configure/automation.tsx:14-29 | After a failed parse, every field's error is exactly that field's own schema message. A passing field has no error. |
| ConfigureAutomation.PrecisionAndTaskRules | tanstack-router-demo/src/routes/Configure/automation.tsx:27-28 | Precision passes on [0.1, 5]. Outside that range it fails with the message for the bound it crosses. An empty task list fails with "At least one task is required". |
| ConfigureAutomation.DefaultAutomationValid | tanstack-router-demo/src/routes/Configure/automation.tsx:35-42 | The default automation settings satisfy every rule. |
| ConfigureAutomation.PrecisionButtonsClamp | tanstack-router-demo/src/routes/Configure/automation.tsx:384-400 | The - and + buttons never go below 0.1 or above 5, and they keep an in-range value in range. Away from the bounds they step by exactly 0.1. |
| ConfigureAutomation.PrecisionDown | tanstack-router-demo/src/routes/Configure/automation.tsx:384 | Definition: `Math.max(0.1, p - 0.1)`. It has no contract of its own. `ConfigureAutomation.PrecisionButtonsClamp` constrains it. |
| ConfigureAutomation.PrecisionUp | tanstack-router-demo/src/routes/Configure/automation.tsx:400 | Definition: `Math.min(5, p + 0.1)`. It has no contract of its own. `ConfigureAutomation.PrecisionButtonsClamp` constrains it. |
| ConfigureAutomation.RoundDiv50 | tanstack-router-demo/src/routes/Configure/automation.tsx:278 | Definition: `Math.round(v / 50)` on an integer, with halves rounding up. It has no contract of its own. `ConfigureAutomation.SliderRoundTrip` and `ConfigureAutomation.SliderRangeSelects` constrain it. |
| ConfigureAutomation.SliderSensitivity | tanstack-router-demo/src/routes/Configure/automation.tsx:278 | Definition: the stop at the rounded index, or None off the list. It has no contract of its own. `ConfigureAutomation.SliderRoundTrip` and `ConfigureAutomation.SliderRangeSelects` constrain it. |
| ConfigureAutomation.SliderPosition | tanstack-router-demo/src/routes/Configure/automation.tsx:276 | Definition: `indexOf(s) * 50`, where `indexOf` is `TaskOrder.FindIndex` on the three stops. It has no contract of its own. `TaskOrder.FindIndex` and `ConfigureAutomation.SliderRoundTrip` constrain it. |
| ConfigureAutomation.SliderRoundTrip | tanstack-router-demo/src/routes/Configure/automation.tsx:276-279 | A sensitivity turned into its slider position and back is the same sensitivity. A value that is not a stop maps back to nothing, so no change is made. |
| ConfigureAutomation.SliderRangeSelects | tanstack-router-demo/src/routes/Configure/automation.tsx:278 | Every slider position in [0, 100] selects one of the three stops. |
| ConfigureAutomation.Get | tanstack-router-demo/src/routes/Configure/automation.tsx:87-93 | Reading a field gives a value of that field's kind. |
| ConfigureAutomation.With | tanstack-router-demo/src/routes/Configure/automation.tsx:89 | The named field takes the value and every other field is unchanged. |
| ConfigureAutomation.AutomationPage.constructor | tanstack-router-demo/src/routes/Configure/automation.tsx:35-42 | The page starts from the default settings, with no errors and no message. |
| ConfigureAutomation.AutomationPage.HandleChange | tanstack-router-demo/src/routes/Configure/automation.tsx:87-93 | An undefined value changes nothing. Otherwise only the named field changes, only its error is cleared, and the message is cleared. |
| ConfigureAutomation.AutomationPage.HandleDragEnd | tanstack-router-demo/src/routes/Configure/automation.tsx:95-107 | The list is reordered only when the drop target is another task and both ids are in the list. The dragged task then lands at the target's index. |
| ConfigureAutomation.AutomationPage.DecreasePrecision | tanstack-router-demo/src/routes/Configure/automation.tsx:384 | `handleChange` sets the precision to `max(0.1, p - 0.1)`. |
| ConfigureAutomation.AutomationPage.IncreasePrecision | tanstack-router-demo/src/routes/Configure/automation.tsx:400 | `handleChange` sets the precision to `min(5, p + 0.1)`. |
| ConfigureAutomation.AutomationPage.SlideSensitivity | tanstack-router-demo/src/routes/Configure/automation.tsx:277-279 | Moving the slider sets the stop at the rounded index. It changes nothing when no stop is at that index. |
| ConfigureAutomation.AutomationPage.HandleSave | tanstack-router-demo/src/routes/Configure/automation.tsx:109-128 | Valid settings clear the errors and show the validated message. Invalid settings get one error per failing field and show the fix-errors message. |
| ConfigureAutomation.AutomationPage.HandleReset | tanstack-router-demo/src/routes/Configure/automation.tsx:130-134 | The settings become the default, which is valid. Errors are cleared and the reset message shows. |
| WorkspaceMap.NextCycles | tanstack-router-demo/src/routes/Configure/map.tsx:74-79 | A click moves a cell from empty to workstation, then to obstacle, then back to empty. Every click changes the cell, and three clicks restore it. |
| WorkspaceMap.Next | tanstack-router-demo/src/routes/Configure/map.tsx:74-79 | Definition: the click cycle. It has no contract of its own. `WorkspaceMap.NextCycles` constrains it. |
| WorkspaceMap.Toggled | tanstack-router-demo/src/routes/Configure/map.tsx:71-81 | Definition: the grid with the clicked cell advanced. It has no contract of its own. `WorkspaceMap.ToggledChangesOnlyCell`, `WorkspaceMap.ThreeClicksRestore` and `WorkspaceMap.ToggledCounts` constrain it. |
| WorkspaceMap.ToggledChangesOnlyCell | tanstack-router-demo/src/routes/Configure/map.tsx:71-81 | A click changes only the clicked cell, which takes its next kind. The grid keeps its shape. |
| WorkspaceMap.ThreeClicksRestore | tanstack-router-demo/src/routes/Configure/map.tsx:68-82 | Three clicks on the same cell give back the original map. |
| WorkspaceMap.CountsBounded | tanstack-router-demo/src/routes/Configure/map.tsx:90-95 | The workstation count plus the obstacle count is never more than the number of cells. |
| WorkspaceMap.RowCount | tanstack-router-demo/src/routes/Configure/map.tsx:90-95 | Definition: the occurrences of a kind in one row. It has no contract of its own. `WorkspaceMap.CountsBounded` and `WorkspaceMap.ToggledCounts` constrain it. |
| WorkspaceMap.Count | tanstack-router-demo/src/routes/Configure/map.tsx:90-95 | Definition: `mapData.flat().filter(cell => cell === kind).length`. It has no contract of its own. `WorkspaceMap.CountsBounded`, `WorkspaceMap.InitialMapEmpty` and `WorkspaceMap.ToggledCounts` constrain it. |
| WorkspaceMap.CellCount | tanstack-router-demo/src/routes/Configure/map.tsx:90-95 | Definition: the number of cells of the flattened grid. It has no contract of its own. `WorkspaceMap.CountsBounded` and `WorkspaceMap.ShapedCellCount` constrain it. |
| WorkspaceMap.ShapedCellCount | tanstack-router-demo/src/routes/Configure/map.tsx:25-27 | A grid of `rows` rows and `cols` columns has `rows * cols` cells. |
| WorkspaceMap.InitialMapEmpty | tanstack-router-demo/src/routes/Configure/map.tsx:25-27 | The initial map is 10 by 10 and every cell is empty, so both counts are 0. |
| WorkspaceMap.InitialMap | tanstack-router-demo/src/routes/Configure/map.tsx:25-27 | Definition: a 10 by 10 grid of empty cells. It has no contract of its own. `WorkspaceMap.InitialMapEmpty` constrains it. |
| WorkspaceMap.ToggledCounts | tanstack-router-demo/src/routes/Configure/map.tsx:74-95 | After a click, a kind's count drops by one if the old cell had that kind. It rises by one if the new cell has it. |
| WorkspaceMap.MapEditor.constructor | tanstack-router-demo/src/routes/Configure/map.tsx:61-65 | The editor starts with the initial map and no cell selected. |
| WorkspaceMap.MapEditor.HandleCellClick | tanstack-router-demo/src/routes/Configure/map.tsx:68-82 | The clicked cell becomes selected, and only that cell moves to its next kind. The selected cell's displayed type is that next kind. |
| WorkspaceMap.MapEditor.HandleReset | tanstack-router-demo/src/routes/Configure/map.tsx:84-87 | The map goes back to the initial map and no cell is selected, so both counts are 0. |
| WorkspaceMap.MapEditor.CountsWithinGrid | tanstack-router-demo/src/routes/Configure/map.tsx:90-95 | On the editor's 10 by 10 map, the workstations and obstacles together number at most 100. |
| WorkspaceMap.MapEditor.WorkstationCount | tanstack-router-demo/src/routes/Configure/map.tsx:90-92 | Definition: `WorkspaceMap.Count` of workstations on the editor's map. It has no contract of its own. `WorkspaceMap.MapEditor.CountsWithinGrid` and `WorkspaceMap.MapEditor.HandleReset` constrain it. |
| WorkspaceMap.MapEditor.ObstacleCount | tanstack-router-demo/src/routes/Configure/map.tsx:93-95 | Definition: `WorkspaceMap.Count` of obstacles on the editor's map. It has no contract of its own. `WorkspaceMap.MapEditor.CountsWithinGrid` and `WorkspaceMap.MapEditor.HandleReset` constrain it. |
| WorkspaceMap.MapEditor.SelectedCellType | tanstack-router-demo/src/routes/Configure/map.tsx:96-98 | Definition: the selected cell's kind, or None ("none") with no selection. It has no contract of its own. `WorkspaceMap.MapEditor.HandleCellClick` constrains it. |
| Login.ShortPasswordRejected | tanstack-router-demo/src/routes/Login.tsx:18-21 | A password under 6 UTF-16 code units makes the login form fail. The password field gets "Password must be at least 6 characters". |
| Login.LoginIssues | tanstack-router-demo/src/routes/Login.tsx:18-21 | Definition: the issue list of `loginSchema.parse`, in field order. It has no contract of its own. `Login.ShortPasswordRejected`, `Login.EmojiPasswordLongEnough` and `Login.SignupThenLogin` constrain it. |
| Login.EmojiPasswordLongEnough | tanstack-router-demo/src/routes/Login.tsx:20 | A password of three emoji passes the six-character minimum, because it is six UTF-16 code units long. |
| Login.MismatchReported | tanstack-router-demo/src/routes/Login.tsx:23-30 | Different passwords make sign-up fail with "Passwords do not match" on confirmPassword, whatever else fails. |
| Login.SignupParsesIff | tanstack-router-demo/src/routes/Login.tsx:23-30 | The sign-up form parses exactly when the email is well formed, both passwords have 6 or more UTF-16 code units, and the two match. |
| Login.SignupIssues | tanstack-router-demo/src/routes/Login.tsx:23-30 | Definition: the issue list of `signupSchema.parse`: the three field checks, then the refinement. It has no contract of its own. `Login.MismatchReported` and `Login.SignupParsesIff` constrain it. |
| Login.Accepted | tanstack-router-demo/src/routes/Login.tsx:77-95 | Definition: the default pair, or a stored account with that password. It has no contract of its own. `Login.SignupThenLogin`, `Login.SignupKeepsOtherAccounts` and `Login.LoginPage.CheckCredentials` constrain it. |
| Login.SignupThenLogin | tanstack-router-demo/src/routes/Login.tsx:87-128 | After a new email signs up, logging in with the same email and password passes both the schema and the credential check. |
| Login.SignupKeepsOtherAccounts | tanstack-router-demo/src/routes/Login.tsx:123-124 | Adding an account does not change which passwords any other email accepts. |
| Login.LoginPage.constructor | tanstack-router-demo/src/routes/Login.tsx:47-55 | The page starts in login mode with empty forms and no errors. |
| Login.LoginPage.HandleLoginChange | tanstack-router-demo/src/routes/Login.tsx:57-62 | Only the named login field changes. Its error and the auth error are cleared. |
| Login.LoginPage.HandleSignupChange | tanstack-router-demo/src/routes/Login.tsx:64-69 | Only the named sign-up field changes. Its error and the auth error are cleared. |
| Login.LoginPage.HandleLogin | tanstack-router-demo/src/routes/Login.tsx:71-111 | A form that fails the schema only gets field errors. The default pair or a stored pair stores the auth email and dispatches the event. Any other pair gets "Invalid email or password", and the auth marker stays as it was. |
| Login.LoginPage.CheckCredentials | tanstack-router-demo/src/routes/Login.tsx:77-97 | For a parsed form, the default pair or a stored account with that password stores the auth email and dispatches the event. Any other pair gets "Invalid email or password", and the auth marker stays as it was. |
| Login.LoginPage.HandleSignup | tanstack-router-demo/src/routes/Login.tsx:113-141 | A form that fails the schema only gets field errors. A taken email gets "Email already exists", and the store stays as it was. Otherwise exactly that account is added, the email is logged in and the event is dispatched. |
| Login.LoginPage.ToggleMode | tanstack-router-demo/src/routes/Login.tsx:335-341 | Switching mode clears all errors and empties both forms. |
| Session.SessionStorage.constructor | tanstack-router-demo/src/routes/Login.tsx:87-124 | Session storage holds the accounts and the auth marker, and no event has been dispatched yet. |
| Session.HasEmail | tanstack-router-demo/src/routes/__root.tsx:9-20 | Definition: whether a non-empty auth email is stored. It has no contract of its own. `RootRoute.BeforeLoad`, `RootRoute.LoggedOutIsGuarded` and `RootRoute.RootLayout.HandleLogout` constrain it. |
| RootRoute.BeforeLoad | tanstack-router-demo/src/routes/__root.tsx:8-16 | A navigation proceeds exactly when an auth email is stored or the path is "/Login". Otherwise it redirects to "/Login", with `redirect` set to the original path. |
| RootRoute.AuthChangedTarget | tanstack-router-demo/src/routes/__root.tsx:28-29 | After login the target is the `redirect` value, or "/" when that is absent or empty. The target is never empty. |
| RootRoute.LoginPageNeverRedirected | tanstack-router-demo/src/routes/__root.tsx:10 | The guard never redirects "/Login", so it cannot loop. |
| RootRoute.RedirectRoundTrip | tanstack-router-demo/src/routes/__root.tsx:9-30 | After login, the page navigates to the path the guard had redirected, and the guard then lets it through. |
| RootRoute.LoggedOutIsGuarded | tanstack-router-demo/src/routes/__root.tsx:9-42 | With the auth marker removed, every path except "/Login" is redirected. |
| RootRoute.RootLayout.constructor | tanstack-router-demo/src/routes/__root.tsx:19-21 | `isLoggedIn` starts as whether an auth email is stored. |
| RootRoute.RootLayout.HandleAuthStateChanged | tanstack-router-demo/src/routes/__root.tsx:24-32 | `isLoggedIn` is re-read from storage. When logged in, the layout navigates to the post-login target; otherwise it does not navigate. |
| RootRoute.RootLayout.HandleLogout | tanstack-router-demo/src/routes/__root.tsx:40-47 | When logged out, nothing changes. When logged in: the marker is removed, `isLoggedIn` becomes false, one event fires, the alert shows, and "/Login" is the last navigation. |
| Fleet.WithoutId | tanstack-router-demo/src/routes/Fleet/index.tsx:26-28 | Delete keeps exactly the robots whose id differs, each as often as before. |
| Fleet.WithoutIdKeepsOrder | tanstack-router-demo/src/routes/Fleet/index.tsx:27 | The robots left after a delete keep their original order. |
| Fleet.WithoutAbsentId | tanstack-router-demo/src/routes/Fleet/index.tsx:27 | Deleting an id that no robot has leaves the list unchanged. |
| Fleet.WithoutIdIdempotent | tanstack-router-demo/src/routes/Fleet/index.tsx:27 | Deleting the same id twice equals deleting it once. |
| Fleet.FleetPage.constructor | tanstack-router-demo/src/routes/Fleet/index.tsx:18-19 | The fleet starts with no robots and the modal closed. |
| Fleet.FleetPage.OpenModal | tanstack-router-demo/src/routes/Fleet/index.tsx:39 | The add button opens the modal and leaves the list alone. |
| Fleet.FleetPage.CloseModal | tanstack-router-demo/src/routes/Fleet/index.tsx:84 | The close button closes the modal and leaves the list alone. |
| Fleet.FleetPage.HandleAddRobot | tanstack-router-demo/src/routes/Fleet/index.tsx:21-24 | The robot is added after all the previous robots, which keep their order, and the modal closes. |
| Fleet.FleetPage.HandleDeleteRobot | tanstack-router-demo/src/routes/Fleet/index.tsx:26-28 | Every robot with the id is removed, all the others keep their order, and the modal is untouched. |
| TableFilter.LowerChar | tanstack-router-demo/src/routes/table/index.tsx:27 | ASCII `toLowerCase` on one character: an upper-case letter becomes lower case, and every other character is unchanged. |
| TableFilter.Lower | tanstack-router-demo/src/routes/table/index.tsx:27 | `toLowerCase` on a string keeps the length and lowers each character. |
| TableFilter.FieldText | tanstack-router-demo/src/routes/table/index.tsx:27 | Definition: `String(item[filterType])`, which is "undefined" for a missing column. It has no contract of its own. `TableFilter.FilteredRows` constrains it. |
| TableFilter.Includes | tanstack-router-demo/src/routes/table/index.tsx:27 | Definition: `s.includes(sub)`. It has no contract of its own. `TableFilter.FilteredRows` and `TableFilter.FilterIgnoresCase` constrain it. |
| TableFilter.Matches | tanstack-router-demo/src/routes/table/index.tsx:27 | Definition: the lowered column text includes the lowered filter text. It has no contract of its own. `TableFilter.FilteredRows` and `TableFilter.FilterIgnoresCase` constrain it. |
| TableFilter.FilteredRows | tanstack-router-demo/src/routes/table/index.tsx:24-29 | With no column or no text chosen, every row comes back. Otherwise exactly the rows whose column contains the text, ignoring case, come back, each as often as in the data. |
| TableFilter.FilteredRowsKeepOrder | tanstack-router-demo/src/routes/table/index.tsx:26-28 | The result keeps the dataset's order and is never longer than the data. |
| TableFilter.FilterIgnoresCase | tanstack-router-demo/src/routes/table/index.tsx:27 | Two filter texts that differ only in letter case select the same rows. |
| Pagination.PrevRequest | tanstack-router-demo/src/components/ui/pagination.tsx:10-14 | Prev asks for `currentPage - 1` exactly when the bar is shown and `currentPage > 1`. Otherwise it asks for nothing. |
| Pagination.NextRequest | tanstack-router-demo/src/components/ui/pagination.tsx:10-18 | Next asks for `currentPage + 1` exactly when the bar is shown and `currentPage < totalPages`. Otherwise it asks for nothing. |
| Pagination.RequestsStayInRange | tanstack-router-demo/src/components/ui/pagination.tsx:12-18 | From a page in [1, totalPages], both buttons only ever ask for a page in that range. |
| Pagination.DisabledIffNoRequest | tanstack-router-demo/src/components/ui/pagination.tsx:12-35 | When the bar is shown on a page in range, Prev is disabled exactly when clicking it asks for nothing. The same holds for Next. |
| Pagination.PrevDisabled | tanstack-router-demo/src/components/ui/pagination.tsx:25 | Definition: `currentPage === 1`. It has no contract of its own. `Pagination.DisabledIffNoRequest` constrains it. |
| Pagination.NextDisabled | tanstack-router-demo/src/components/ui/pagination.tsx:35 | Definition: `currentPage === totalPages`. It has no contract of its own. `Pagination.DisabledIffNoRequest` constrains it. |
| Pagination.WalkNext | tanstack-router-demo/src/components/ui/pagination.tsx:16-18 | If the parent always moves to the page asked for, `k` clicks on Next go forward `k` pages but stop at the last page. |
| Pagination.WalkPrev | tanstack-router-demo/src/components/ui/pagination.tsx:12-14 | If the parent always moves to the page asked for, `k` clicks on Prev go back `k` pages but stop at page 1. |
| RobotStatus.SeverityColor | tanstack-router-demo/src/routes/New.tsx:43-51 | Severities 1, 2, 3 and 4 map to green, yellow, red and grey-300 respectively. Every other severity, and only those, maps to the default grey-200. |
| RobotStatus.GetBatteryStatus | tanstack-router-demo/src/routes/New.tsx:53-57 | `filled` is always 3. The colour is green at 70 and above, orange from 30 up to 70, and red below 30. |
| RobotStatus.SegmentColor | tanstack-router-demo/src/routes/New.tsx:166-175 | Definition: a segment's colour class. It has no contract of its own. `RobotStatus.BatterySegmentsAllFilled` and `RobotStatus.SampleRobotColours` constrain it. |
| RobotStatus.BatterySegmentsAllFilled | tanstack-router-demo/src/routes/New.tsx:166-175 | Every battery segment shows the charge colour and none is unfilled. |
| RobotStatus.SampleRobotColours | tanstack-router-demo/src/routes/New.tsx:34-175 | The sample robot's tiles: the battery (charge 35) is orange, software yellow, hardware red and network green. |
| Contact.ParsesIff | tanstack-router-demo/src/routes/Contact.tsx:24-28 | The form parses exactly when the name is non-empty, the email is well formed and the message has 10 or more UTF-16 code units. |
| Contact.FieldMessage | tanstack-router-demo/src/routes/Contact.tsx:24-28 | Definition: each field's schema message, or None when that field passes. It has no contract of its own. `Contact.NameAndMessageRules` and `Contact.ErrorsAreFieldMessages` constrain it. |
| Contact.Issues | tanstack-router-demo/src/routes/Contact.tsx:24-28 | The issue list of `contactSchema.parse` has at most one issue per field, so at most three. `Contact.ParsesIff` and `Contact.ErrorsAreFieldMessages` constrain it further. |
| Contact.NameAndMessageRules | tanstack-router-demo/src/routes/Contact.tsx:25-27 | An empty name fails with "Name is required". A message under 10 UTF-16 code units fails with "Message must be at least 10 characters". Each field passes otherwise. |
| Contact.ErrorsAreFieldMessages | tanstack-router-demo/src/routes/Contact.tsx:24-85 | After a failed parse, every field's error is exactly that field's own message. A passing field has no error. |
| Contact.ContactPage.constructor | tanstack-router-demo/src/routes/Contact.tsx:45-50 | The form starts with empty fields and no errors, and nothing has been sent. |
| Contact.ContactPage.HandleChange | tanstack-router-demo/src/routes/Contact.tsx:53-59 | Only the named field changes and only its error is cleared. |
| Contact.ContactPage.HandleSubmit | tanstack-router-demo/src/routes/Contact.tsx:61-90 | An invalid form gets one error per failing field, and nothing is sent. A valid form is sent. If the response is ok, the form and errors are cleared and the success alert shows. A failed response shows the retry alert, and a network failure shows the generic error alert; in both the form is kept. |

## Left out

- Rendering is left out: JSX, Tailwind classes, animations, layout checks and the "active setting" and navigation bar state of the Configure pages.
- The drag-and-drop library's collision detection, sensors and transforms are left out. The model takes the `active.id` and `over.id` the library reports as inputs.
- zod's email-format check is an abstract predicate `isEmail` passed to the forms. The model assumes zod's issue order: schema order, with the sign-up refinement last.
- The `fetch` to the form service is left out. Its outcome is the input `Contact.Response`.
- Storage is modelled as maps. JSON text, `JSON.parse` and `JSON.stringify` are left out.
  - `ConfigureIndex.InitialConfig` treats a stored value as either a saved configuration or text that does not parse.
  - Text that parses to JSON that is not a configuration is not modelled. The source would load such a value unchecked.
- The window event `authStateChanged` is modelled as a counter, `Session.SessionStorage.authEvents`.
  - `RootRoute.RootLayout.HandleLogout` runs the layout's own listener synchronously, as the browser does.
  - A login or sign-up's event reaches `RootRoute.RootLayout.HandleAuthStateChanged` only when the caller invokes it.
  - The other pages' event listeners are left out.
- Robot ids are a parameter of `Fleet.FleetPage.HandleAddRobot`; `crypto.randomUUID` and the add-robot form are left out.
- Fractional numbers (speed, precision, charge, severity) are exact reals; IEEE-754 rounding is left out. Page numbers, slider positions and counts are integers.
  - The precision steps of ±0.1 and `toFixed(1)` are exact in the model. In the browser they accumulate binary rounding error.
  - `parseFloat` of the precision text box, which can produce NaN, is left out.
- The slider position is an integer, and `Math.round(v / 50)` is modelled as `(v + 25) / 50`. The slider only reports whole numbers in [0, 100].
- `TableFilter.Lower` folds only the ASCII letters A-Z. JavaScript's `toLowerCase` also folds other Unicode letters.
- The table's data is any list of rows. The mock data file and the react-table row models are left out.
- The source clears one field's error with `{ ...prev, [name]: undefined }`. In the model this removes the field's entry from the error map, since an `undefined` entry shows no error.
- The root layout's and the contact form's alert texts are recorded in their `alerts` fields; the dialogs themselves are left out. `console` logging, the static pages (home, dashboard, overview, settings), the layouts and the router and provider setup are left out. They carry no logic beyond display.
- The contact page's login indicator and its floating dock are left out.
- `ConfigureIndex.ConfigPage.HandleDragEnd` follows the source, which has no presence check on the dragged ids. `TaskOrder.UnguardedMoveDropsLast` and `TaskOrder.UnguardedMoveExample` show what happens when an id is absent. This is not listed as a defect: the drag-and-drop library only reports ids of rendered tasks, and every rendered task is in the list.
