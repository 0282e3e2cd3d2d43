# Lab parameters dashboard: navigation, parameter groups and translations

This project models the state and navigation rules of a single-page dashboard. The dashboard manages laboratory analysis parameters at a water treatment facility, and the model proves properties of those rules.

**The three store slices**, each a class whose methods update their fields and the browser storage mirror in place:
- Navigation: a four-level selection of section, child, unit and sub-tab. Changing a level clears the levels below it.
- Parameters: groups of parameters, edited by find-then-mutate reducers.
- Translations: the current language and its dictionary. A guard drops stale dictionary loads.

**Around the slices:**
- The URL synchroniser of the application shell parses a path and dispatches into the navigation slice.
- The navigation-derived helpers of the user interface:
  - the sidebar's selected and open keys and its click targets;
  - the breadcrumb trail;
  - the header and footer texts and tabs;
  - the unit tabs.
- The edit logic of the parameters table, its columns and the add-parameter dialog.

**How the model represents things:**
- Browser storage is a `map` field holding the typed record. JSON text is not modelled, and an unparseable record counts as absent.
- `Date.now()` becomes a `stamp` parameter.
- Numbers are `real`. A parsed number is an `Option<real>`, where `None` stands for NaN.
- The network fetches (chemical elements, translation files) never fail in the source: they fall back to a built-in list or an empty dictionary. Their results are therefore parameters of the methods that use them.

The synchroniser sets the unit after the child, and the unit setter does not check the child. So `/inputs/general/x` selects unit `x` under child `general` (`UrlSync.SyncUnitUnderOtherChild`). Loading the navigation record from storage does not re-apply the reset rules either (`NavigationSlice.LoadReturnsStoredVerbatim`).

## Model

| member | source | states |
|---|---|---|
| NavigationSlice.LoadWithNothingStored | src/redux/slices/navigationSlice.ts:10-28 | with nothing stored the selection is map with nothing below it |
| NavigationSlice.LoadReturnsStoredVerbatim | src/redux/slices/navigationSlice.ts:18-28 | load after save returns exactly the stored record; no reset rule is re-applied |
| NavigationSlice.WithSection | src/redux/slices/navigationSlice.ts:34-44 | the section is set. A section other than inputs clears child, unit and sub-tab. Inputs keeps the child, and keeps unit and sub-tab exactly when the child is chemistry |
| NavigationSlice.WithChild | src/redux/slices/navigationSlice.ts:48-54 | the section never changes. A child other than chemistry clears unit and sub-tab; chemistry leaves them untouched |
| NavigationSlice.WithUnit | src/redux/slices/navigationSlice.ts:58-62 | the unit is set and the sub-tab emptied; section and child are not checked or changed |
| NavigationSlice.WithSubTab | src/redux/slices/navigationSlice.ts:65-67 | only the sub-tab changes |
| NavigationSlice.SettersIdempotent | src/redux/slices/navigationSlice.ts:34-69 | each setter applied twice with the same payload equals applying it once |
| NavigationSlice.LeavingInputsClearsBelow | src/redux/slices/navigationSlice.ts:37-44 | any section but inputs yields (s, '', '', '') from every prior selection |
| NavigationSlice.WalkDownAndBack | src/redux/slices/navigationSlice.ts:34-62 | the walk default → inputs → chemistry → reactor → map, and chemistry → general clearing unit and sub-tab |
| NavigationSlice.NavigationStore.constructor | src/redux/slices/navigationSlice.ts:18-32 | the store starts from what storage holds |
| NavigationSlice.NavigationStore.SetActiveSection | src/redux/slices/navigationSlice.ts:34-47 | the new selection is WithSection of the old; the full record is stored and loads back unchanged |
| NavigationSlice.NavigationStore.SetActiveChild | src/redux/slices/navigationSlice.ts:48-57 | the new selection is WithChild of the old; the full record is stored |
| NavigationSlice.NavigationStore.SetActiveUnit | src/redux/slices/navigationSlice.ts:58-64 | the new selection is WithUnit of the old; the full record is stored |
| NavigationSlice.NavigationStore.SetActiveSubTab | src/redux/slices/navigationSlice.ts:65-69 | the new selection is WithSubTab of the old; the full record is stored |
| UrlSync.ParsePath | src/App.tsx:30-62 | the section is always one of the four. A unit is parsed only under inputs. Child and unit never contain '/'. A path under no known prefix gives (map, '', '') |
| UrlSync.SyncFromLocation | src/App.tsx:64-68 | the three ordered dispatches leave the store at SyncState of the old selection, stored |
| UrlSync.PrefixOfSection | src/App.tsx:35-56 | prefixes are tested in the order inputs, calculate, outputs, map, and a path "/"+section+rest passes its own section's test first |
| UrlSync.ParseSectionChild | src/App.tsx:37-61 | `/{section}/{child}` parses to that section and child for all four sections |
| UrlSync.ParseSection | src/App.tsx:35-62 | `/{section}` parses to that section with no child |
| UrlSync.ParseInputsUnit | src/App.tsx:35-43 | `/inputs/{child}/{unit}` parses to all three levels |
| UrlSync.ExtraSegmentIgnored | src/App.tsx:44-61 | a third segment under calculate, outputs or map is ignored |
| UrlSync.SyncReachesUnit | src/App.tsx:64-68 | `/inputs/chemistry/u` yields (inputs, chemistry, u, '') from any selection |
| UrlSync.SyncKeepsUnitUnderChemistry | src/App.tsx:64-68 | navigating to `/inputs/chemistry` keeps the open unit and sub-tab |
| UrlSync.SyncUnitUnderOtherChild | src/App.tsx:42-43 | `/inputs/general/x` selects unit x under child general |
| UrlSync.SyncMapChild | src/App.tsx:56-65 | `/map/overview` keeps child overview though setting the section cleared it first |
| UrlSync.SyncUnknownPath | src/App.tsx:30-33 | a path under no known prefix lands on the initial selection |
| UrlSync.RootIsMap | src/App.tsx:30-33 | the root path lands on the initial selection |
| UrlSync.PrefixNotSegment | src/App.tsx:35 | matching is by prefix, not segment: `/inputsX` is an inputs path |
| UrlSync.NotPrefixAt | src/App.tsx:35 | a path differing from a prefix at some position does not start with it |
| UrlSync.SplitTwoSegments | src/App.tsx:37 | `"/"+a+"/"+b` splits on '/' into ["", a, b] |
| UrlSync.SplitThreeSegments | src/App.tsx:37 | `"/"+a+"/"+b+"/"+c` splits into ["", a, b, c] |
| UrlSync.SplitOneSegment | src/App.tsx:37 | `"/"+a` splits into ["", a] |
| Strings.StringOr | src/components/Breadcrumb.tsx:23 | `s \|\| fallback`: an absent or empty string falls back |
| Strings.Split | src/App.tsx:37 | one piece more than separators, and no piece contains the separator |
| Strings.CountZeroIffAbsent | src/App.tsx:37 | a string has no separators exactly when the separator does not occur |
| Strings.SplitWithoutSeparator | src/App.tsx:37 | a string without the separator splits into itself |
| Strings.SplitConcat | src/App.tsx:37 | splitting at one separator splits both sides independently |
| Strings.SplitJoin | src/components/Breadcrumb.tsx:90-93 | split undoes join when no piece holds the separator |
| Strings.JoinSplit | src/components/Breadcrumb.tsx:90-93 | join undoes split |
| Strings.SplitPiecesAvoid | src/components/Breadcrumb.tsx:90-93 | a character absent from a string is absent from every piece |
| Strings.ToLower | src/hooks/useTableColumns.tsx:83 | same length, no upper-case ASCII letter remains |
| Strings.ToLowerIdempotent | src/hooks/useTableColumns.tsx:83 | lower-casing twice is lower-casing once |
| Strings.CapitalizeFirst | src/components/Breadcrumb.tsx:32 | same length; the first character is the input's first character upper-cased (a lower-case letter becomes upper case, anything else is kept); the rest unchanged |
| Strings.CamelCase | src/components/Breadcrumb.tsx:84-86 | never longer than its input, and non-empty for non-empty input; its content is fixed joint by joint by the lemmas below |
| Strings.CamelCaseWithoutDash | src/components/Breadcrumb.tsx:84-86 | a name without '-' is unchanged |
| Strings.CamelCaseHead | src/components/Breadcrumb.tsx:84-86 | the first character is the input's, or the upper-cased letter after a leading dash |
| Strings.CamelCaseLeavesNoJoint | src/components/Breadcrumb.tsx:84-86 | no '-' followed by a lower-case letter survives |
| Strings.CamelCaseStep | src/components/Breadcrumb.tsx:84-86 | at the first dash, when a lower-case letter follows: `w1-xw2` becomes `w1X` followed by the camel-cased rest, so every such joint is replaced |
| Strings.CamelCaseKeepsDash | src/components/Breadcrumb.tsx:84-86 | at the first dash, when no lower-case letter follows: the dash is kept and the rest is camel-cased |
| Strings.CapitalizeAll | src/components/Breadcrumb.tsx:92 | one word out per word in |
| Strings.FormatUnitNameWords | src/components/Breadcrumb.tsx:89-94 | the formatted name splits on spaces into the capitalised words, one more than the hyphens |
| ParametersSlice.Merge | src/redux/slices/parametersSlice.ts:61 | each field the stored record holds overrides the initial state's |
| ParametersSlice.LoadAfterSave | src/redux/slices/parametersSlice.ts:56-67 | loading a stored snapshot gives back the saved state |
| ParametersSlice.LoadPartialRecord | src/redux/slices/parametersSlice.ts:56-67 | a stored record without groups starts with the two initial groups |
| ParametersSlice.FirstGroupIndex | src/redux/slices/parametersSlice.ts:74 | the index of the first group with the id, or the length when none has it |
| ParametersSlice.FirstParameterIndex | src/redux/slices/parametersSlice.ts:76 | the index of the first parameter with the id, or the length when none has it |
| ParametersSlice.FindGroup | src/redux/slices/parametersSlice.ts:74 | the linear search returns the first matching group's index |
| ParametersSlice.FindParameter | src/redux/slices/parametersSlice.ts:76 | the linear search returns the first matching parameter's index |
| ParametersSlice.UpdatedValue | src/redux/slices/parametersSlice.ts:73-83 | only the value of the first matching parameter of the first matching group changes; an unknown id changes nothing |
| ParametersSlice.UpdatedValueIdempotent | src/redux/slices/parametersSlice.ts:73-83 | updating twice with the same value equals updating once |
| ParametersSlice.SameIdsSameIndex | src/redux/slices/parametersSlice.ts:74 | group lists with the same ids find the same group |
| ParametersSlice.SameParameterIdsSameIndex | src/redux/slices/parametersSlice.ts:76 | parameter lists with the same ids find the same parameter |
| ParametersSlice.NewParameter | src/redux/slices/parametersSlice.ts:87-96 | id "param_"+stamp, group set to the target group, unit/alarm/description default to '', 'Normal', '' when absent or empty |
| ParametersSlice.Appended | src/redux/slices/parametersSlice.ts:84-101 | exactly one parameter appended at the end of the first matching group; an unknown group changes nothing |
| ParametersSlice.WithoutParameter | src/redux/slices/parametersSlice.ts:105 | no kept parameter has the id, and every parameter without it is kept |
| ParametersSlice.WithoutParameterConcat | src/redux/slices/parametersSlice.ts:105 | filtering keeps order: it filters each part of a list on its own |
| ParametersSlice.WithoutAbsentParameter | src/redux/slices/parametersSlice.ts:105 | removing an id that no parameter has changes nothing |
| ParametersSlice.WithoutParameterIdempotent | src/redux/slices/parametersSlice.ts:105 | filtering twice equals filtering once |
| ParametersSlice.RemoveUndoesAppend | src/redux/slices/parametersSlice.ts:97-105 | removing a freshly appended parameter with a new id restores the list |
| ParametersSlice.Removed | src/redux/slices/parametersSlice.ts:102-109 | the first matching group loses every parameter with the id; other groups are untouched |
| ParametersSlice.RemovedIdempotent | src/redux/slices/parametersSlice.ts:102-109 | removing twice equals removing once |
| ParametersSlice.Described | src/redux/slices/parametersSlice.ts:110-117 | only the first matching group's description changes |
| ParametersSlice.InitialGroupsConsistent | src/redux/slices/parametersSlice.ts:28-49 | every initial parameter's group field names the group holding it |
| ParametersSlice.OperationsKeepGroupFields | src/redux/slices/parametersSlice.ts:73-117 | update, add, remove and describe keep every parameter's group field naming its group |
| ParametersSlice.ParametersStore.constructor | src/redux/slices/parametersSlice.ts:56-71 | the store starts from the merged stored record |
| ParametersSlice.ParametersStore.UpdateParameter | src/redux/slices/parametersSlice.ts:73-83 | groups become UpdatedValue of the old; storage is written only when the target was found |
| ParametersSlice.ParametersStore.AddParameter | src/redux/slices/parametersSlice.ts:84-101 | groups become Appended of the old; storage is written only when the group exists |
| ParametersSlice.ParametersStore.RemoveParameter | src/redux/slices/parametersSlice.ts:102-109 | groups become Removed of the old; storage is written whenever the group exists |
| ParametersSlice.ParametersStore.UpdateGroupDescription | src/redux/slices/parametersSlice.ts:110-117 | groups become Described of the old; storage is written only when the group exists |
| ParametersSlice.ParametersStore.SetAvailableElements | src/redux/slices/parametersSlice.ts:118-120 | only the element list changes; nothing is stored |
| ParametersSlice.ParametersStore.SetLoading | src/redux/slices/parametersSlice.ts:121-123 | only the loading flag changes; nothing is stored |
| ParametersSlice.ParametersStore.SetError | src/redux/slices/parametersSlice.ts:124-126 | only the error changes; nothing is stored |
| TranslationsSlice.Lookup | src/modules/header/PageHeader.tsx:38 | `t[key] \|\| fallback`: a missing or empty translation falls back |
| TranslationsSlice.LoadStartsEmpty | src/redux/slices/translationsSlice.ts:8-27 | startup has an empty dictionary and a non-empty language, English with nothing stored |
| TranslationsSlice.WithLanguage | src/redux/slices/translationsSlice.ts:33-37 | the language is set, the dictionary kept |
| TranslationsSlice.WithTranslations | src/redux/slices/translationsSlice.ts:38-40 | the dictionary is replaced, the language never changes |
| TranslationsSlice.WithLoaded | src/redux/slices/translationsSlice.ts:41-45 | a load for the current language replaces the dictionary; any other load changes nothing |
| TranslationsSlice.TranslationsStore.constructor | src/redux/slices/translationsSlice.ts:14-31 | the store starts from the stored language |
| TranslationsSlice.TranslationsStore.SetCurrentLanguage | src/redux/slices/translationsSlice.ts:33-37 | the language is set and only the code is stored; a non-empty code loads back |
| TranslationsSlice.TranslationsStore.SetTranslations | src/redux/slices/translationsSlice.ts:38-40 | the dictionary is replaced; nothing is stored |
| TranslationsSlice.TranslationsStore.LoadTranslations | src/redux/slices/translationsSlice.ts:41-45 | the state becomes WithLoaded of the old; nothing is stored |
| Sidebar.SelectedKeys | src/modules/navigation/Sidebar.tsx:42-47 | `[section-child]` when a child is selected, `[section]` otherwise |
| Sidebar.OpenKeys | src/modules/navigation/Sidebar.tsx:49-54 | `[section]` exactly for the four sections, `[]` otherwise |
| Sidebar.MenuOpenKeysCases | src/modules/navigation/Sidebar.tsx:199 | a collapsed menu opens no submenu; an expanded one opens exactly the active section when it is one of the four, and nothing otherwise |
| Sidebar.MenuClickPath | src/modules/navigation/Sidebar.tsx:56-62 | every target starts with '/'; a key without '-' navigates to "/"+key |
| Sidebar.MenuClick | src/modules/navigation/Sidebar.tsx:56-68 | a click navigates to MenuClickPath and asks to collapse exactly on mobile |
| Sidebar.CollapseRequests | src/modules/navigation/Sidebar.tsx:65-75 | on mobile every click asks to collapse and on the desktop none does; no key but Escape asks, and Escape asks neither on the desktop nor once the drawer is collapsed |
| Sidebar.OpenChangeTarget | src/modules/navigation/Sidebar.tsx:204-220 | collapsed: nothing; all closed: the active section; otherwise the last opened key when non-empty and different |
| Sidebar.ClickChildKey | src/modules/navigation/Sidebar.tsx:57-59 | `p-c` navigates to `/p/c` |
| Sidebar.ClickDropsLaterParts | src/modules/navigation/Sidebar.tsx:58 | parts after a second '-' are dropped |
| Sidebar.PlainNameHasNoSeparator | src/modules/navigation/Sidebar.tsx:77-191 | a lower-case name holds neither '-' nor '/' |
| Sidebar.MenuNamesPlain | src/modules/navigation/Sidebar.tsx:77-191 | every menu key and child name is a lower-case name |
| Sidebar.ChildKeysShape | src/modules/navigation/Sidebar.tsx:77-191 | every child key holds exactly one '-', and the part before it is the parent's key |
| Sidebar.MenuKeyRoundTrip | src/modules/navigation/Sidebar.tsx:42-62 | clicking any menu key and synchronising from the path highlights that same key, from any prior selection |
| Breadcrumb.BuildBreadcrumbItems | src/components/Breadcrumb.tsx:13-81 | 1 to 4 crumbs: home linking to '/'; the section only when non-empty and not map; the child only with a non-empty child; the unclickable unit only for a unit under inputs/chemistry; titles and links per level |
| Breadcrumb.CrumbLinksResync | src/components/Breadcrumb.tsx:19-55 | following a crumb's link selects that crumb's level again |
| Breadcrumb.TwoWordUnitNames | src/components/Breadcrumb.tsx:84-94 | a two-word unit such as cooling-towers gets key coolingTowers and title Cooling Towers |
| Breadcrumb.TwoWordFormat | src/components/Breadcrumb.tsx:89-94 | `w1-w2` is formatted as the two words capitalised with one space |
| PageFooter.UnitKeyIsSegment | src/modules/footer/PageFooter.tsx:29-65 | a unit key is a non-empty path segment |
| PageFooter.UnitKeysWellFormed | src/modules/footer/PageFooter.tsx:29-65 | every unit the footer offers has a well-formed key |
| PageFooter.WithoutDirectTabs | src/modules/footer/PageFooter.tsx:68 | exactly the keys other than reactor and cooling-towers are kept |
| PageFooter.DropdownUnitsInOrder | src/modules/footer/PageFooter.tsx:29-68 | the dropdown is ion-exchange, compliance-points and the four flow-chemistry units, in that order |
| PageFooter.DropdownUnitsAreTheRest | src/modules/footer/PageFooter.tsx:68 | the dropdown holds exactly the offered units without a button |
| PageFooter.CurrentDropdownValue | src/modules/footer/PageFooter.tsx:71-76 | nothing for reactor and cooling-towers, the tab itself otherwise |
| PageFooter.DropdownShowsEverySelection | src/modules/footer/PageFooter.tsx:71-76 | every dropdown entry, once chosen, is shown as the value |
| PageFooter.SelectUnitAgreesWithStore | src/modules/footer/PageFooter.tsx:18-26 | a button or dropdown choice selects that unit in the store, and the local tab agrees with it |
| PageFooter.ContentTabKeys | src/modules/footer/PageFooter.tsx:78-283 | never empty, so the null return is unreachable; three tabs for a chemistry unit, at most two otherwise |
| PageFooter.ChemistryWithoutUnitFallsBack | src/modules/footer/PageFooter.tsx:80-276 | inputs without a unit falls through to the info tab |
| PageHeader.BottomText | src/modules/header/PageHeader.tsx:34-45 | reactor text exactly for inputs/chemistry/reactor, cooling-towers text exactly for inputs/chemistry/cooling-towers, the default otherwise |
| PageHeader.BottomContentWithoutDictionary | src/modules/header/PageHeader.tsx:38-44 | with no dictionary the literal fallback is shown |
| PageHeader.HandleLanguageChange | src/modules/header/PageHeader.tsx:24-32 | the language is set first, then its dictionary is loaded under the same code, and only the code is stored |
| PageHeader.OverlappingChangesKeepLatest | src/modules/header/PageHeader.tsx:24-32 | two overlapping changes, one load each, arriving in either order, keep only the latest choice's dictionary |
| PageHeader.LoadCurrentTranslations | src/App.tsx:87-98 | the shell's effect loads the fetched dictionary under the current code, so it always lands; storage is untouched |
| PageHeader.LoadsKeepLatestChoice | src/App.tsx:87-98 | with the header's and the shell's loads arriving in any interleaving, loads for other languages are dropped, and the current language's dictionary is kept once any load for it arrives |
| UnitNavigation.TabAfterUnitChange | src/modules/navigation/UnitNavigation.tsx:12-17 | the local tab follows the store's unit whenever it changes |
| UnitNavigation.TabRowsDisjoint | src/modules/navigation/UnitNavigation.tsx:33-69 | the two tab rows share no key |
| UnitNavigation.SameUnitsAsFooter | src/modules/navigation/UnitNavigation.tsx:33-69 | the rows hold the footer's eight units: its buttons plus its dropdown |
| UnitNavigation.TabClickSelectsUnit | src/modules/navigation/UnitNavigation.tsx:19-31 | a tab click selects exactly that unit from any selection, the component stays visible, and the mirrored tab stays on the key |
| ParametersTable.HandleSave | src/modules/tables/ParametersTable.tsx:31-42 | accepted exactly for a parsed non-negative number; not a number and negative are rejected with their messages |
| ParametersTable.ZeroIsAccepted | src/modules/tables/ParametersTable.tsx:37-41 | zero is saved |
| ParametersTable.HandleKeyPress | src/modules/tables/ParametersTable.tsx:44-50 | Enter saves, Escape cancels, any other key does nothing |
| ParametersTable.NoGroupsOnlyFromStorage | src/modules/tables/ParametersTable.tsx:166-173 | the no-groups message needs a stored empty group list; the initial groups never show it |
| ParametersTable.EditingTable.constructor | src/modules/tables/ParametersTable.tsx:87 | editing starts with no row |
| ParametersTable.EditingTable.EditDisabledExactlyWhenEditing | src/hooks/useTableColumns.tsx:121 | the edit button is disabled exactly on the editing rows |
| ParametersTable.EditingTable.Edit | src/modules/tables/ParametersTable.tsx:89-93 | exactly the rows with the edited id are editing |
| ParametersTable.EditingTable.Cancel | src/modules/tables/ParametersTable.tsx:95-97 | no row with a non-empty id is editing |
| ParametersTable.EditingTable.Save | src/modules/tables/ParametersTable.tsx:99-102 | the groups become UpdatedValue of the old and storage is written exactly when the target is found, then editing stops; elements, loading and error are unchanged |
| ParametersTable.EditingTable.Delete | src/modules/tables/ParametersTable.tsx:104-107 | the groups become Removed of the old and storage is written exactly when the group exists; elements, loading and error are unchanged |
| ParametersTable.EditingTable.SaveCell | src/hooks/useTableColumns.tsx:55-66 | an accepted value is saved to the row's own group and id, and storage is written exactly when that row is found; a rejected one changes nothing and keeps the row editing; elements, loading and error never change |
| TableColumns.AlarmColor | src/hooks/useTableColumns.tsx:82-93 | case-insensitive: critical red, warning orange, normal green, anything else or absent default |
| TableColumns.AlarmColorIgnoresCase | src/hooks/useTableColumns.tsx:83 | an alarm and its lower-cased form get the same colour |
| TableColumns.DefaultAlarmShowsNormal | src/hooks/useTableColumns.tsx:96-98 | a parameter added without an alarm shows "Normal" in green |
| TableColumns.PlaceholderShowsDash | src/hooks/useTableColumns.tsx:70-110 | the unit and description cells show '-' for an absent or empty text and the text otherwise; a parameter added without unit or description shows '-' in both |
| TableColumns.SaveRoutesToOwnRow | src/hooks/useTableColumns.tsx:61 | saving a row's cell sets exactly that row's value when its ids find it |
| AddParameterModal.FilteredElements | src/modules/modals/AddParameterModal.tsx:75-77 | exactly the available elements whose value was not added yet |
| AddParameterModal.FilteredElementsConcat | src/modules/modals/AddParameterModal.tsx:75-77 | the filter keeps the original order |
| AddParameterModal.NothingSelectedOffersAll | src/modules/modals/AddParameterModal.tsx:75-77 | with nothing added every element is offered |
| AddParameterModal.FirstElementIndex | src/modules/modals/AddParameterModal.tsx:48 | the index of the first element with the value, or the length |
| AddParameterModal.ParameterNameOfListed | src/modules/modals/AddParameterModal.tsx:48-49 | the name is the label of the first element with the chosen value |
| AddParameterModal.ParameterNameOfUnlisted | src/modules/modals/AddParameterModal.tsx:48-49 | without a matching element the name is the raw value |
| AddParameterModal.ValueOrZero | src/modules/modals/AddParameterModal.tsx:55 | the value defaults to 0 |
| AddParameterModal.AddParameterDialog.constructor | src/modules/modals/AddParameterModal.tsx:23 | a dialog starts with nothing added |
| AddParameterModal.AddParameterDialog.HandleOk | src/modules/modals/AddParameterModal.tsx:43-68 | a valid form adds the named, defaulted parameter, stores the state exactly when the group exists, remembers the element (no longer offered) and closes; an invalid one changes neither groups, storage nor the remembered elements; elements, loading and error never change |
| AddParameterModal.AddParameterDialog.HandleCancel | src/modules/modals/AddParameterModal.tsx:70-73 | cancel closes and dispatches nothing |
| AddParameterModal.AddParameterDialog.LoadElements | src/modules/modals/AddParameterModal.tsx:25-41 | the fetched list is stored with loading lowered, nothing else changes; a non-empty list stops further loads |

## Left out

- Rendering, icons, styles, tooltips and the translated labels of menus, tabs and buttons: they are display only.
- The content pages (map, inputs, calculate, outputs, not found) are rendering only and not part of this model. The same holds for the group editing dialog, whose validation is declarative form rules; the reducer it calls is modelled.
- The network fetch of chemical elements and the dynamic import of translation files are not modelled. Their results are method parameters; neither fetch fails in the source.
- JSON encoding and decoding are not modelled. Storage holds the typed record, and an unparseable record counts as absent.
- Floating point: `parseFloat` and `toFixed` are not modelled. A parsed number is an `Option<real>`, with `None` for NaN.
- Case mapping covers ASCII letters only.
- React plumbing is not modelled: hooks, effect scheduling and the mobile-resize listener. The shell's translation effect re-runs on every change of the current language. It is modelled as `PageHeader.LoadCurrentTranslations`, and its extra load per change is covered by `PageHeader.LoadsKeepLatestChoice`.
- The `navigate` and `onCollapse` callbacks are outputs: the model returns the path or the collapse request instead of calling them.
- Success and error toasts are not modelled.
- Timing and concurrency of asynchronous calls are not modelled. Overlapping language changes are covered as orders of arrival of their loads, in `PageHeader.OverlappingChangesKeepLatest` and `PageHeader.LoadsKeepLatestChoice`.
- Storage writes never fail in the model. In the source every reducer writes storage without a guard, so a throwing write (quota exceeded, storage disabled) aborts the reducer and the whole update is lost. Only the loads at startup catch errors.
- `PageHeader.LanguageOptions` is a constant list; the selector's options are not otherwise modelled.
- AddParameterModal.AddParameterDialog.HandleOk: the form's validation library is reduced to its two rules (an element is required; a value, when given, is non-negative).
- ParametersSlice.NewParameter: the id is `"param_"` plus a caller-supplied stamp, so two adds with the same stamp get the same id; uniqueness of ids is not claimed.
