# ai4Local, modelled in Dafny

ai4Local is a campaign-marketing platform for French- and Malagasy-speaking businesses. This project
models the parts of it that hold logic, and proves properties of them:

- the Python ML service, whose analyser and optimiser return fixed placeholder answers and whose
  model registry stays empty;
- the web app's campaign list, with its filters, sort and reducer;
- notifications, with their reducer, filters and bulk actions;
- drafts, with the draft store, the merge, diff and summary helpers, and the publish/create/update
  schemas;
- A/B tests, with the store's lifecycle, the sanity checks, the significance and winner
  calculations, the traffic splitter and the editor;
- templates, with the template and filter stores and the filter, sort and score helpers;
- the campaign creation wizard, with its context reducer and navigation rule, the campaign store,
  the creation page, both sets of step schemas, the UTM link, the audience estimates, the planning
  arithmetic, the media helpers and the upload hook;
- the realtime dashboard's event buffer and chart windows;
- the generic data table;
- the role-filtered navigation menus;
- the shared string helpers: Malagasy phone numbers, translation, sectors, content complexity,
  retry with backoff, and the offline text compression.

Each source file is one Dafny module, in the form the source takes:

- Zustand stores and React hooks become classes. Their state is in fields, and each action is a
  method whose `ensures` gives the whole new state as a pure function of the old one.
- Code that loops or reassigns becomes a method whose loop is proved against a specification
  function. This covers bulk deletes, accumulating validators, `determineWinner`, the
  traffic-splitter update, `calculateDimensions`, the audience estimate, the upload loop and
  `retryWithBackoff`.
- Zod schemas become predicates over typed records.
- Reducers and the other pure helpers become functions.

The properties are stated as lemmas over those functions. Two more things support this:

- Small scenario methods run a class through a short session and pin down its results.
- The browser and JavaScript functions the code relies on are modelled on their own and proved
  correct as encoder and decoder pairs. These are UTF-8, percent-encoding, `encodeURIComponent`
  and `decodeURIComponent`, `btoa` and `atob`, and the `URLSearchParams` serialization.

Times are `nat` parameters in milliseconds, and `Math.random()` draws are `real` parameters in
[0, 1). Money, percentages and JavaScript numbers are `real`, and JavaScript's rounding functions
are written out in `JsNumber`.

The code and its declared types disagree in one place, and the model follows the code: the draft
publish schema requires a media list, although its parameter type marks media as optional.

## Model

| member | source | states |
|---|---|---|
| MlService.AnalyzeText | services/ml-service/src/main.py:86-133 | The response echoes the text, language and analysis type, reports confidence 0.85 and the measured time; "sentiment" gives the keys sentiment, score, emotions (with joy, confidence, surprise), "classification" and "keywords" their own key sets, any other type an empty result. |
| MlService.AnalysisResultEmptyIffUnlisted | services/ml-service/src/main.py:95-122 | The result is empty exactly when the analysis type is not one of the three that the models endpoint advertises. |
| MlService.OptimizeContent | services/ml-service/src/main.py:139-168 | The content comes back unchanged as both original and optimized, with SEO score 75.5 and readability 82.3; Facebook and Instagram get their three suggestions, every other platform the single email suggestion. |
| MlService.OptimizeContentIgnoresAudienceAndLanguage | services/ml-service/src/main.py:139-168 | Two requests with the same content and platform get the same answer, whatever their audience and language. |
| MlService.ListModels | services/ml-service/src/main.py:205-212 | The models answer lists one name per registry entry, the languages fr and mg, and the three analysis types. |
| MlService.Health | services/ml-service/src/main.py:184-191 | The health answer is "healthy", version "1.0.0", and lists the same model names as the models answer. |
| MlService.MLService.constructor | services/ml-service/src/main.py:70-72 | A new service has an empty model registry. |
| MlService.MLService.LoadModels | services/ml-service/src/main.py:74-84 | Loading the models leaves the registry as it was, since every loader call is commented out. |
| MlService.StartupHealth | services/ml-service/src/main.py:175-212 | After start-up the service reports healthy with no models loaded, and the models answer lists no models. |
| CampaignTypes.ApplyPatch | apps/web/src/app/modules/campaigns/welcome/hooks/useCampaigns.ts:71-89 | Spreading an empty patch over a campaign gives the campaign back. |
| CampaignTypes.StatusPatchOnlyStatus | apps/web/src/app/modules/campaigns/welcome/hooks/useCampaigns.ts:383-402 | A patch of only a status, as the bulk pause and resume send, changes the status and nothing else. |
| CampaignsMock.FilterCampaigns | apps/web/src/app/modules/campaigns/welcome/mocks/campaigns.mock.ts:984-1054 | Every campaign returned passes all of the criteria, and the result is no longer than the input. |
| CampaignsMock.FilterCampaignsSubsequence | apps/web/src/app/modules/campaigns/welcome/mocks/campaigns.mock.ts:984-1054 | The result keeps the input order, and a campaign is in it exactly when it is in the input and passes every criterion. |
| CampaignsMock.DefaultFiltersKeepAll | apps/web/src/app/modules/campaigns/welcome/mocks/campaigns.mock.ts:920-933 | The default filters keep every campaign, in order. |
| CampaignsMock.SearchIgnoresCase | apps/web/src/app/modules/campaigns/welcome/mocks/campaigns.mock.ts:987-996 | Upper-casing or lower-casing the search query does not change which campaigns match. |
| CampaignsMock.SearchFindsName | apps/web/src/app/modules/campaigns/welcome/mocks/campaigns.mock.ts:988-990 | A query that occurs in the lower-cased name matches, whatever the other fields hold. |
| CampaignsMock.BoundsInclusive | apps/web/src/app/modules/campaigns/welcome/mocks/campaigns.mock.ts:1030-1049 | The budget and start-date bounds admit values equal to the bound at both ends, and a minimum above the total budget rejects it. |
| CampaignsMock.SortCampaigns | apps/web/src/app/modules/campaigns/welcome/mocks/campaigns.mock.ts:1057-1117 | The sorted copy has as many campaigns as the input. |
| CampaignsMock.SortCampaignsCorrect | apps/web/src/app/modules/campaigns/welcome/mocks/campaigns.mock.ts:1062-1116 | The result is a permutation of the input, ordered by the chosen key (descending for any order other than "asc"), with campaigns of equal key in input order. |
| CampaignsMock.UnknownSortFieldIsUpdatedAt | apps/web/src/app/modules/campaigns/welcome/mocks/campaigns.mock.ts:1106-1110 | An unknown sort field sorts exactly as `updatedAt` does. |
| CampaignsMock.MissingEndSortsLast | apps/web/src/app/modules/campaigns/welcome/mocks/campaigns.mock.ts:1082-1085 | Sorting ascending by end date, a campaign without an end date never comes before one that has an end date. |
| UseCampaigns.AddPrepends | apps/web/src/app/modules/campaigns/welcome/hooks/useCampaigns.ts:59-65 | ADD_CAMPAIGN puts the campaign first, keeps all the others behind it in order, clears loading and keeps the error. |
| UseCampaigns.UpdateTouchesOnlyId | apps/web/src/app/modules/campaigns/welcome/hooks/useCampaigns.ts:66-76 | UPDATE_CAMPAIGN changes, in place, exactly the campaigns with that id: each gets the updates and a fresh `updatedAt`. |
| UseCampaigns.DeleteRemovesId | apps/web/src/app/modules/campaigns/welcome/hooks/useCampaigns.ts:77-83 | DELETE_CAMPAIGN keeps the remaining campaigns in order, and a campaign survives exactly when its id differs. |
| UseCampaigns.BulkUpdateTouchesOnlyIds | apps/web/src/app/modules/campaigns/welcome/hooks/useCampaigns.ts:84-94 | BULK_UPDATE changes, in place, exactly the campaigns whose id is listed. |
| UseCampaigns.LoadingCleared | apps/web/src/app/modules/campaigns/welcome/hooks/useCampaigns.ts:54-104 | Every data action and SET_ERROR clear loading, only SET_ERROR changes the error, and an unknown action returns the state unchanged. |
| UseCampaigns.Stats | apps/web/src/app/modules/campaigns/welcome/hooks/useCampaigns.ts:148-193 | The total is the number of campaigns and bounds each status count; with no campaigns every sum and every average is 0 instead of a division by zero; otherwise each average is the mean rounded to two decimals as `Number(mean.toFixed(2))` gives it, within half a hundredth of the mean. |
| UseCampaigns.Round2 | apps/web/src/app/modules/campaigns/welcome/hooks/useCampaigns.ts:166-190 | `Number(x.toFixed(2))` is a whole number of hundredths at most half a hundredth from `x`. |
| UseCampaigns.Round2Symmetric | apps/web/src/app/modules/campaigns/welcome/hooks/useCampaigns.ts:166-190 | Rounding commutes with negation, so a tie goes away from zero: 0.125 gives 0.13 and -0.125 gives -0.13. |
| UseCampaigns.NegativeTieAverage | apps/web/src/app/modules/campaigns/welcome/hooks/useCampaigns.ts:166-172 | One campaign with a click-through rate of -0.125 has an average click-through rate of -0.13. |
| UseCampaigns.StatusCountsWithinTotal | apps/web/src/app/modules/campaigns/welcome/hooks/useCampaigns.ts:150-160 | The six status counts together never exceed the total. |
| UseCampaigns.StatsAfterAdd | apps/web/src/app/modules/campaigns/welcome/hooks/useCampaigns.ts:148-193 | Adding a campaign adds one to the total and its budget and spend to the sums, and adds one draft exactly when it is a draft. |
| UseCampaigns.NewCampaign | apps/web/src/app/modules/campaigns/welcome/hooks/useCampaigns.ts:209-272 | The new campaign has id "camp_" followed by the clock, both timestamps at the clock, is not archived, has a non-empty name, takes each supplied field, and falls back on draft status, the default budget, zero metrics and a start one day later in Europe/Paris. |
| UseCampaigns.Or | apps/web/src/app/modules/campaigns/welcome/hooks/useCampaigns.ts:214-221 | Falling back to a non-empty default when the value is empty never gives an empty string. |
| UseCampaigns.FindById | apps/web/src/app/modules/campaigns/welcome/hooks/useCampaigns.ts:334 | The campaign found is the first in the list with the id; nothing is found exactly when no campaign has the id. |
| UseCampaigns.DuplicateShape | apps/web/src/app/modules/campaigns/welcome/hooks/useCampaigns.ts:337-359 | The copy is named with " (Copie)", is a draft with zeroed metrics and nothing spent, keeps the budget, tags and schedule, and gets a new id and creation time. |
| UseCampaigns.MergeFiltersLaws | apps/web/src/app/modules/campaigns/welcome/hooks/useCampaigns.ts:196-198 | Merging an empty patch keeps the filters, a patch naming every field replaces them, and merging the same patch twice is merging it once. |
| UseCampaigns.MergeFiltersFields | apps/web/src/app/modules/campaigns/welcome/hooks/useCampaigns.ts:196-198 | Each field present in the patch wins and each absent field keeps its current value. |
| UseCampaigns.StatusOnlyPatch | apps/web/src/app/modules/campaigns/welcome/hooks/useCampaigns.ts:196-198 | A patch holding only a status list changes the status filter and nothing else. |
| UseCampaigns.CampaignsHook.constructor | apps/web/src/app/modules/campaigns/welcome/hooks/useCampaigns.ts:107-119 | The hook starts with the initial state, the default filters and no selection. |
| UseCampaigns.CampaignsHook.Dispatch | apps/web/src/app/modules/campaigns/welcome/hooks/useCampaigns.ts:115 | A dispatch replaces the state by the reducer's result and touches nothing else. |
| UseCampaigns.CampaignsHook.LoadCampaigns | apps/web/src/app/modules/campaigns/welcome/hooks/useCampaigns.ts:122-139 | After the initial load the campaigns are the data, loading is off and there is no error. |
| UseCampaigns.CampaignsHook.UpdateFilters | apps/web/src/app/modules/campaigns/welcome/hooks/useCampaigns.ts:196-198 | The filters become the current ones merged with the partial patch; campaigns and selection are unchanged. |
| UseCampaigns.CampaignsHook.SelectCampaign | apps/web/src/app/modules/campaigns/welcome/hooks/useCampaigns.ts:200-202 | The selection becomes the given campaign and nothing else changes. |
| UseCampaigns.CampaignsHook.CreateCampaign | apps/web/src/app/modules/campaigns/welcome/hooks/useCampaigns.ts:204-285 | The built campaign is put first and selected, and loading is cleared. |
| UseCampaigns.CampaignsHook.UpdateCampaign | apps/web/src/app/modules/campaigns/welcome/hooks/useCampaigns.ts:287-307 | The state goes through UPDATE_CAMPAIGN; a selected campaign with that id gets the updates but keeps its old `updatedAt`; any other selection is kept. |
| UseCampaigns.CampaignsHook.DeleteCampaign | apps/web/src/app/modules/campaigns/welcome/hooks/useCampaigns.ts:309-329 | The state goes through DELETE_CAMPAIGN, and the selection is cleared exactly when it was that campaign. |
| UseCampaigns.CampaignsHook.DuplicateCampaign | apps/web/src/app/modules/campaigns/welcome/hooks/useCampaigns.ts:331-368 | An unknown id fails with "Campagne non trouvée" and records the duplication error; a known id puts the copy first, clears loading, keeps the error, selects the copy and returns it. |
| UseCampaigns.CampaignsHook.ArchiveCampaign | apps/web/src/app/modules/campaigns/welcome/hooks/useCampaigns.ts:370-380 | Archiving is an update to status "completed" with `isArchived` set. |
| UseCampaigns.CampaignsHook.BulkUpdate | apps/web/src/app/modules/campaigns/welcome/hooks/useCampaigns.ts:383-419 | Bulk pause, resume and archive are one BULK_UPDATE each; filters and selection are unchanged. |
| UseCampaigns.CampaignsHook.BulkDelete | apps/web/src/app/modules/campaigns/welcome/hooks/useCampaigns.ts:420-438 | No listed id remains and the rest keep their order; the selection is cleared when it was listed; with no ids loading stays set. |
| UseCampaigns.FilteredIsSortedFilter | apps/web/src/app/modules/campaigns/welcome/hooks/useCampaigns.ts:142-145 | The filtered list is a permutation of the filter's result, and holds a campaign exactly when the campaign passes the filters. |
| UseCampaigns.FilteredSortedKeep | apps/web/src/app/modules/campaigns/welcome/hooks/useCampaigns.ts:142-145 | The sorted filtered list is sorted by the chosen field and order, is a permutation of the filter's result, and holds exactly the campaigns the filters keep. |
| UseCampaigns.CampaignsHook.FilteredCampaigns | apps/web/src/app/modules/campaigns/welcome/hooks/useCampaigns.ts:142-145 | The hook's filtered list is sorted by the chosen field and order, and holds exactly the campaigns of the state that its filters keep. |
| NotificationData.ApplyPatch | apps/web/src/app/modules/dashboard/notifications/useNotifications.ts:30-35 | Spreading an empty update over a notification gives it back unchanged. |
| NotificationData.FilterNotifications | apps/web/src/app/modules/dashboard/notifications/mocks/data.ts:229-303 | Every notification returned passes all the criteria, and the result is no longer than the input. |
| NotificationData.FilterNotificationsSubsequence | apps/web/src/app/modules/dashboard/notifications/mocks/data.ts:229-303 | The result keeps input order, and a notification is in it exactly when it is in the input and passes every criterion. |
| NotificationData.DefaultFiltersKeepAll | apps/web/src/app/modules/dashboard/notifications/mocks/data.ts:170-178 | The default filters keep every notification, in order. |
| NotificationData.PriorityFilterNeedsPriority | apps/web/src/app/modules/dashboard/notifications/mocks/data.ts:253-259 | A non-empty priority filter drops every notification without a priority. |
| NotificationData.StatusFilterByReadFlag | apps/web/src/app/modules/dashboard/notifications/mocks/data.ts:245-251 | The status filter sees only the read flag: with ["read"] only read notifications pass, and with no other filter exactly the read ones pass. |
| NotificationData.SearchIgnoresCase | apps/web/src/app/modules/dashboard/notifications/mocks/data.ts:270-280 | Upper-casing the search query does not change whether a notification matches. |
| UseNotifications.InitialState | apps/web/src/app/modules/dashboard/notifications/useNotifications.ts:105-115 | The start state is consistent (the unread count counts the unread notifications) with no selection, the default filters and no loading. |
| UseNotifications.AllRead | apps/web/src/app/modules/dashboard/notifications/useNotifications.ts:80 | Every notification is kept in place with its read flag set. |
| UseNotifications.AllReadHasNoUnread | apps/web/src/app/modules/dashboard/notifications/useNotifications.ts:79-85 | After marking all read, no notification is unread. |
| UseNotifications.ReducerKeepsValid | apps/web/src/app/modules/dashboard/notifications/useNotifications.ts:11-90 | Every action keeps the unread count equal to the number of unread notifications. |
| UseNotifications.MarkAllReadEffect | apps/web/src/app/modules/dashboard/notifications/useNotifications.ts:79-85 | MARK_ALL_READ leaves every notification read, the same number of them, and the count at zero. |
| UseNotifications.AddAndDeleteEffect | apps/web/src/app/modules/dashboard/notifications/useNotifications.ts:22-49 | ADD puts the notification first; DELETE removes that id from the list, in order, and from the selection. |
| UseNotifications.MarkAsReadEffect | apps/web/src/app/modules/dashboard/notifications/useNotifications.ts:69-77 | MARK_AS_READ sets the read flag on the listed ids only and changes nothing else. |
| UseNotifications.SettersTouchOnlyTheirField | apps/web/src/app/modules/dashboard/notifications/useNotifications.ts:51-88 | Each setter changes only its own field, SET_ERROR also clears loading, and an unknown action changes nothing. |
| UseNotifications.Find | apps/web/src/app/modules/dashboard/notifications/useNotifications.ts:184 | The notification found is the first in the list with the id; nothing is found exactly when no notification has it. |
| UseNotifications.ToggleReadEffect | apps/web/src/app/modules/dashboard/notifications/useNotifications.ts:182-194 | An unknown id changes nothing; with unique ids, only the notification with that id changes, and only its read flag flips. |
| UseNotifications.ToggleReadTwice | apps/web/src/app/modules/dashboard/notifications/useNotifications.ts:182-194 | With unique ids, toggling the same notification twice restores the state. |
| UseNotifications.DeleteEachEffect | apps/web/src/app/modules/dashboard/notifications/useNotifications.ts:175-179 | Deleting a list of ids removes exactly those from the notifications and the selection, keeps the order and the unread count consistent. |
| UseNotifications.FilterNoneLeft | apps/web/src/app/modules/dashboard/notifications/useNotifications.ts:175-179 | Removing every selected id from the selection leaves it empty. |
| UseNotifications.Stats | apps/web/src/app/modules/dashboard/notifications/useNotifications.ts:297-302 | The totals count the notifications, the unread ones, the selection and the filtered ones; unread and filtered never exceed the total. |
| UseNotifications.NotificationsHook.constructor | apps/web/src/app/modules/dashboard/notifications/useNotifications.ts:98-115 | The hook starts from the initial state built from its initial data. |
| UseNotifications.NotificationsHook.Dispatch | apps/web/src/app/modules/dashboard/notifications/useNotifications.ts:105 | A dispatch replaces the state by the reducer's result. |
| UseNotifications.NotificationsHook.SelectAll | apps/web/src/app/modules/dashboard/notifications/useNotifications.ts:152-155 | The selection becomes the ids of the filtered notifications, in order. |
| UseNotifications.NotificationsHook.ClearFilters | apps/web/src/app/modules/dashboard/notifications/useNotifications.ts:143-145 | The filters go back to the defaults and nothing else changes. |
| UseNotifications.NotificationsHook.MarkSelectedAsRead | apps/web/src/app/modules/dashboard/notifications/useNotifications.ts:170-173 | The selected notifications are marked read, then the selection is emptied. |
| UseNotifications.NotificationsHook.DeleteSelected | apps/web/src/app/modules/dashboard/notifications/useNotifications.ts:175-179 | One DELETE per selected id, in order. |
| UseNotifications.NotificationsHook.ToggleRead | apps/web/src/app/modules/dashboard/notifications/useNotifications.ts:182-194 | The state is the toggled state: one UPDATE flipping the flag when the id is known, nothing otherwise. |
| UseNotifications.NotificationsHook.Refresh | apps/web/src/app/modules/dashboard/notifications/useNotifications.ts:213-222 | The notifications become the initial data again with a matching unread count, loading off and no error. |
| UseNotifications.NotificationsHook.LoadMore | apps/web/src/app/modules/dashboard/notifications/useNotifications.ts:224-234 | Loading more ends with loading off and nothing more to load. |
| UseNotifications.DeleteSelectedScenario | apps/web/src/app/modules/dashboard/notifications/useNotifications.ts:148-179 | After selecting and deleting, nothing is selected, no selected notification remains and the state is consistent. |
| NotificationsLayout.Layout.constructor | apps/web/src/app/modules/dashboard/notifications/NotificationsLayout.tsx:110-120 | The layout starts from the mock notifications, the default filters, live updates on and the unread count of the mock data. |
| NotificationsLayout.Layout.Dispatch | apps/web/src/app/modules/dashboard/notifications/NotificationsLayout.tsx:29-107 | A dispatch replaces the state by the reducer's result. |
| NotificationsLayout.Layout.HandleBulkAction | apps/web/src/app/modules/dashboard/notifications/NotificationsLayout.tsx:237-255 | "selectAll" selects the given ids, "deselectAll" clears the selection, "markAsRead" marks them read and clears the selection, "delete" deletes each in turn, and any other action changes nothing. |
| NotificationsLayout.Layout.HandleToggleRead | apps/web/src/app/modules/dashboard/notifications/NotificationsLayout.tsx:258-270 | The state becomes the toggled state: the read flag of the notification with that id flips when there is one. |
| NotificationsLayout.Layout.HandleSearch | apps/web/src/app/modules/dashboard/notifications/NotificationsLayout.tsx:214-222 | Only the search query of the filters changes. |
| NotificationsLayout.Layout.HandleEmptyAction | apps/web/src/app/modules/dashboard/notifications/NotificationsLayout.tsx:288-302 | The filters are reset exactly when a query, channel, type, status or tag filter is active; otherwise the state is untouched. |
| NotificationsLayout.Layout.HandleRetry | apps/web/src/app/modules/dashboard/notifications/NotificationsLayout.tsx:305-308 | The error is cleared and the mock notifications are loaded again with a matching unread count. |
| NotificationsLayout.EmptyActionScenario | apps/web/src/app/modules/dashboard/notifications/NotificationsLayout.tsx:288-302 | After the empty-state action no filter it looks at is active, and when it reset, the filters are the defaults. |
| NotificationsLayout.MarkAsReadScenario | apps/web/src/app/modules/dashboard/notifications/NotificationsLayout.tsx:245-248 | From a fresh layout, bulk "markAsRead" marks exactly the listed notifications read, keeps the others and the count consistent, and leaves nothing selected. |
| DraftTypes.MergeInto | apps/web/src/app/modules/campaigns/drafts/types/draft.types.ts:39-89 | Spreading an empty update over a draft gives the draft back. |
| DraftTypes.Overlay | apps/web/src/app/modules/campaigns/drafts/types/draft.types.ts:89 | Spreading one partial draft over another: an empty side is the identity on either side. |
| DraftTypes.MergeToPatch | apps/web/src/app/modules/campaigns/drafts/types/draft.types.ts:39-72 | Spreading a draft's own fields over any draft gives that draft, except for the optional keys it lacks, which keep the other draft's values; over itself it is unchanged. |
| DraftHelpers.MergeDraft | apps/web/src/app/modules/campaigns/drafts/utils/draftHelpers.ts:11-19 | The updates win over the draft, both edit times are now, and the version is one more than the draft's own, whatever the updates carry. |
| DraftHelpers.UnsavedOnlyForCheckedFields | apps/web/src/app/modules/campaigns/drafts/utils/draftHelpers.ts:24-33 | A draft compared with its own fields, or with edits only to unchecked fields, has no unsaved change; a changed title is one. |
| DraftHelpers.DiffSelfEmpty | apps/web/src/app/modules/campaigns/drafts/utils/draftHelpers.ts:61-71 | A draft has no difference with itself. |
| DraftHelpers.DiffThenMerge | apps/web/src/app/modules/campaigns/drafts/utils/draftHelpers.ts:61-71 | Spreading the diff over the original rebuilds the updated draft, as long as the update keeps the original's optional keys. |
| DraftHelpers.DiffMissesDroppedKey | apps/web/src/app/modules/campaigns/drafts/utils/draftHelpers.ts:64 | A dropped optional key is not in the diff, because only the updated draft's keys are compared. |
| DraftHelpers.TotalMediaSize | apps/web/src/app/modules/campaigns/drafts/utils/draftHelpers.ts:76-78 | Empty media sum to 0; the sum is a number exactly when every item has a size (otherwise NaN). |
| DraftHelpers.TotalMediaSizeConcat | apps/web/src/app/modules/campaigns/drafts/utils/draftHelpers.ts:76-78 | The total of two media lists one after the other is the sum of their totals. |
| DraftHelpers.CanPublishBounds | apps/web/src/app/modules/campaigns/drafts/utils/draftHelpers.ts:104-108 | A publishable draft has a non-empty title, a body of at least ten characters and is not scheduled. |
| DraftHelpers.BlankTitleNotPublishable | apps/web/src/app/modules/campaigns/drafts/utils/draftHelpers.ts:106 | A title of spaces trims to nothing, so the draft cannot be published. |
| DraftHelpers.StripTags | apps/web/src/app/modules/campaigns/drafts/utils/draftHelpers.ts:114 | Removing tags never lengthens the text and adds no character. |
| DraftHelpers.StripTagsNoTag | apps/web/src/app/modules/campaigns/drafts/utils/draftHelpers.ts:114 | After the replacement no tag is left: no "<" has a later ">". |
| DraftHelpers.SanitizeDraftContent | apps/web/src/app/modules/campaigns/drafts/utils/draftHelpers.ts:113-116 | The stripped and trimmed text is returned as is when short enough, and otherwise cut to maxLength characters followed by "...". |
| DraftHelpers.SanitizedHasNoTag | apps/web/src/app/modules/campaigns/drafts/utils/draftHelpers.ts:113-116 | Sanitised content holds no tag. |
| DraftHelpers.SanitizeDefaultLength | apps/web/src/app/modules/campaigns/drafts/utils/draftHelpers.ts:113-116 | With the default `maxLength` of 150, sanitised content holds no tag and at most 153 characters. |
| DraftHelpers.DraftSummary | apps/web/src/app/modules/campaigns/drafts/utils/draftHelpers.ts:38-56 | The summary starts with "<channel> post" and is exactly that when there is no campaign, media or schedule. |
| DraftHelpers.RelativeTime | apps/web/src/app/modules/campaigns/drafts/utils/draftHelpers.ts:121-135 | Under a minute is "Just now", then whole minutes, hours and days ago up to a week, then the short date. |
| DraftSchema.MediaIssuesEmptyIff | apps/web/src/app/modules/campaigns/drafts/validators/draft.schema.ts:18-25 | A media item has no issue exactly when it is valid per the media schema. |
| DraftSchema.ArrayIssuesEmptyIff | apps/web/src/app/modules/campaigns/drafts/validators/draft.schema.ts:40-50 | A media array has no issue exactly when every item is valid. |
| DraftSchema.MediaFieldIssuesEmptyIff | apps/web/src/app/modules/campaigns/drafts/validators/draft.schema.ts:40-50 | The media field has no issue exactly when it is present or optional, and every item in it is valid. |
| DraftSchema.Report | apps/web/src/app/modules/campaigns/drafts/validators/draft.schema.ts:62-77 | The result is valid exactly when there is no issue, and the errors are the issues converted in order. |
| DraftSchema.ValidateDraftForPublish | apps/web/src/app/modules/campaigns/drafts/validators/draft.schema.ts:46-78 | Valid exactly when the title is non-empty, the body has at least ten characters, the channel is in the enum, and the media array is present with valid items; valid exactly when there are no errors. |
| DraftSchema.PublishTitleRule | apps/web/src/app/modules/campaigns/drafts/validators/draft.schema.ts:47 | The title error is reported exactly when the title is empty. |
| DraftSchema.PublishBodyRule | apps/web/src/app/modules/campaigns/drafts/validators/draft.schema.ts:48 | The body error is reported exactly when the body has fewer than ten characters. |
| DraftSchema.PublishMediaRequired | apps/web/src/app/modules/campaigns/drafts/validators/draft.schema.ts:50 | A missing media array is reported as "Required". |
| DraftSchema.MediaPathsUnderMedia | apps/web/src/app/modules/campaigns/drafts/validators/draft.schema.ts:50-71 | Every media issue's path starts with "media". |
| DraftSchema.ValidateCreateDraft | apps/web/src/app/modules/campaigns/drafts/validators/draft.schema.ts:27-34 | Valid exactly when title and body have lengths in their bounds, the channel is in the enum, and the campaign id and schedule are well formed when present; one error per issue. |
| DraftSchema.ValidateUpdateDraft | apps/web/src/app/modules/campaigns/drafts/validators/draft.schema.ts:36-44 | Valid exactly when each present field meets its rule; an empty update is valid with no error. |
| DraftSchema.UnderscoreChannelNeverPublishes | apps/web/src/app/modules/campaigns/drafts/validators/draft.schema.ts:9-16 | The channel "google_ads" is always refused, because the enum spells it "google-ads". |
| DraftSchema.PublishAcceptsWellFormed | apps/web/src/app/modules/campaigns/drafts/validators/draft.schema.ts:46-51 | A draft with a title, a body of ten characters, a known channel and an empty media array passes publish validation. |
| DraftsStore.CeilDiv | apps/web/src/app/modules/campaigns/drafts/stores/useDraftsStore.ts:142 | For a positive divisor the result is the least whole number of pages that holds n items, and zero exactly when n is zero. |
| DraftsStore.FetchDraftsEffect | apps/web/src/app/modules/campaigns/drafts/stores/useDraftsStore.ts:108-154 | The fetched list keeps exactly the drafts that pass the merged filters, in order; the total counts them, the page count is their ceiling division by the page size, and selection and edits are untouched. |
| DraftsStore.InitialFiltersKeepAll | apps/web/src/app/modules/campaigns/drafts/stores/useDraftsStore.ts:76-82 | With the initial filters every draft is kept. |
| DraftsStore.NewDraft | apps/web/src/app/modules/campaigns/drafts/stores/useDraftsStore.ts:155-208 | The new draft gets the timestamp id, status "draft", version 1, no media, the payload's fields, the current user as owner, all times now, and a campaign exactly when a non-empty campaign id was given. |
| DraftsStore.CreateDraft | apps/web/src/app/modules/campaigns/drafts/stores/useDraftsStore.ts:155-208 | The new draft is put first, loading and error are cleared, and selection, edits and filters are kept. |
| DraftsStore.UpdateDraftEffect | apps/web/src/app/modules/campaigns/drafts/stores/useDraftsStore.ts:209-237 | Only the draft with the id changes: its version is one more than before whatever the payload says, the payload's title wins and both edit times are now. |
| DraftsStore.RemoveDraftEffect | apps/web/src/app/modules/campaigns/drafts/stores/useDraftsStore.ts:255-294 | Exactly the drafts and selected ids other than the id remain, and nothing else changes besides loading and error. |
| DraftsStore.RemoveAllEffect | apps/web/src/app/modules/campaigns/drafts/stores/useDraftsStore.ts:295-304 | Deleting or publishing a list of ids removes exactly those drafts and selected ids, in order, and keeps edits, filters and pagination. |
| DraftsStore.FindDraft | apps/web/src/app/modules/campaigns/drafts/stores/useDraftsStore.ts:445 | The draft found is the first in the list with that id; nothing is found exactly when no draft has it. |
| DraftsStore.DuplicateShape | apps/web/src/app/modules/campaigns/drafts/stores/useDraftsStore.ts:238-254 | A duplicate is a fresh version-1 draft with " (Copy)" after the title, the same body, channel and tags, no media, and the campaign when its id is non-empty. |
| DraftsStore.DuplicateAllEffect | apps/web/src/app/modules/campaigns/drafts/stores/useDraftsStore.ts:305-307 | A bulk duplicate puts one new draft per found id in front of the existing drafts, which stay in place, and keeps selection and edits. |
| DraftsStore.BulkUnsupportedThrows | apps/web/src/app/modules/campaigns/drafts/stores/useDraftsStore.ts:308-310 | Any other action, such as "archive", throws "Unsupported action: ..." and changes nothing. |
| DraftsStore.ToggleSelectionTwice | apps/web/src/app/modules/campaigns/drafts/stores/useDraftsStore.ts:316-322 | Toggling an id twice restores the selected ids as a set, and exactly when the id was not selected. |
| DraftsStore.SelectAll | apps/web/src/app/modules/campaigns/drafts/stores/useDraftsStore.ts:323-327 | The selection becomes the ids of all drafts, in order. |
| DraftsStore.SetFilters | apps/web/src/app/modules/campaigns/drafts/stores/useDraftsStore.ts:331-336 | Each filter field given replaces the old one and each one not given is kept; the page goes back to 1 with the same page size, and the drafts and everything else stay. |
| DraftsStore.ClearFilters | apps/web/src/app/modules/campaigns/drafts/stores/useDraftsStore.ts:337-343 | The filters and the pagination go back to their initial values; drafts and selection are kept. |
| DraftsStore.SetPageSize | apps/web/src/app/modules/campaigns/drafts/stores/useDraftsStore.ts:439-443 | The page size is set and the page goes back to 1; filters and totals are kept. |
| DraftsStore.ClearFiltersForgetsSetFilters | apps/web/src/app/modules/campaigns/drafts/stores/useDraftsStore.ts:331-343 | Clearing filters after setting filters or the page size gives the same state as clearing alone. |
| DraftsStore.EditingLifecycle | apps/web/src/app/modules/campaigns/drafts/stores/useDraftsStore.ts:344-390 | An edit stamps the draft and queues its id, leaving other ids alone; an autosave dequeues the id, records the time and marks the edit auto-saved; clearing removes only that edit. |
| DraftsStore.AutosaveAllEffect | apps/web/src/app/modules/campaigns/drafts/stores/useDraftsStore.ts:391-403 | After the queue is processed, every queued id that had an edit is dequeued, stamped and stored as auto-saved; a queued id without an edit stays; selection and filters are kept. |
| DraftsStore.TallyEffect | apps/web/src/app/modules/campaigns/drafts/stores/useDraftsStore.ts:408-411 | Counting one more draft of a channel adds one to that channel's count only, keeping each channel once. |
| DraftsStore.StatsByChannel | apps/web/src/app/modules/campaigns/drafts/stores/useDraftsStore.ts:404-432 | Each channel appears once in the tally, with the number of drafts of that channel; the counts sum to the total, and the recent and auto-saved counts do not exceed it. |
| DraftsStore.Store.constructor | apps/web/src/app/modules/campaigns/drafts/stores/useDraftsStore.ts:92-105 | The store starts empty with the initial filters and pagination. |
| DraftsStore.Store.FetchDraftsAction | apps/web/src/app/modules/campaigns/drafts/stores/useDraftsStore.ts:108-154 | The state becomes the fetched state. |
| DraftsStore.Store.CreateDraftAction | apps/web/src/app/modules/campaigns/drafts/stores/useDraftsStore.ts:155-208 | Returns the new draft and prepends it. |
| DraftsStore.Store.UpdateDraftAction | apps/web/src/app/modules/campaigns/drafts/stores/useDraftsStore.ts:209-237 | The state becomes the updated state. |
| DraftsStore.Store.DuplicateDraftAction | apps/web/src/app/modules/campaigns/drafts/stores/useDraftsStore.ts:238-254 | A missing id is rejected with "Draft not found", changing nothing; otherwise the copy is created and returned. |
| DraftsStore.Store.PublishDraftAction | apps/web/src/app/modules/campaigns/drafts/stores/useDraftsStore.ts:255-274 | A published draft leaves the list and the selection. |
| DraftsStore.Store.DeleteDraftAction | apps/web/src/app/modules/campaigns/drafts/stores/useDraftsStore.ts:275-294 | A deleted draft leaves the list and the selection. |
| DraftsStore.Store.BulkActionAction | apps/web/src/app/modules/campaigns/drafts/stores/useDraftsStore.ts:295-313 | The state and the thrown error are those of the bulk action. |
| DraftsStore.Store.BulkRemove | apps/web/src/app/modules/campaigns/drafts/stores/useDraftsStore.ts:299-304 | The single deletions, run in order, give the bulk removal. |
| DraftsStore.Store.BulkDuplicate | apps/web/src/app/modules/campaigns/drafts/stores/useDraftsStore.ts:305-307 | The single duplications, run in order, give the bulk duplicate; a missing id is reported. |
| DraftsStore.Store.SetSelectedIds | apps/web/src/app/modules/campaigns/drafts/stores/useDraftsStore.ts:314 | Only the selection changes. |
| DraftsStore.Store.ToggleSelectionAction | apps/web/src/app/modules/campaigns/drafts/stores/useDraftsStore.ts:316-322 | The selection toggles the id. |
| DraftsStore.Store.SelectAllAction | apps/web/src/app/modules/campaigns/drafts/stores/useDraftsStore.ts:323-327 | Every draft is selected. |
| DraftsStore.Store.ClearSelection | apps/web/src/app/modules/campaigns/drafts/stores/useDraftsStore.ts:328 | The selection is emptied. |
| DraftsStore.Store.SetFiltersAction | apps/web/src/app/modules/campaigns/drafts/stores/useDraftsStore.ts:331-336 | The filters are merged, back to page 1. |
| DraftsStore.Store.ClearFiltersAction | apps/web/src/app/modules/campaigns/drafts/stores/useDraftsStore.ts:337-343 | Filters and pagination are reset. |
| DraftsStore.Store.StartEditingAction | apps/web/src/app/modules/campaigns/drafts/stores/useDraftsStore.ts:344-351 | The draft is stored as being edited. |
| DraftsStore.Store.UpdateEditingDraftAction | apps/web/src/app/modules/campaigns/drafts/stores/useDraftsStore.ts:352-364 | The edit is merged, stamped and queued. |
| DraftsStore.Store.ClearEditingDraftAction | apps/web/src/app/modules/campaigns/drafts/stores/useDraftsStore.ts:365-370 | The edit is dropped. |
| DraftsStore.Store.GetEditingDraft | apps/web/src/app/modules/campaigns/drafts/stores/useDraftsStore.ts:371 | An edit is returned exactly when one is stored for the id. |
| DraftsStore.Store.AutosaveDraftAction | apps/web/src/app/modules/campaigns/drafts/stores/useDraftsStore.ts:374-390 | The draft is stored as auto-saved and dequeued. |
| DraftsStore.Store.ProcessAutosaveQueue | apps/web/src/app/modules/campaigns/drafts/stores/useDraftsStore.ts:391-403 | Each queued id with an edit is saved into the list, then marked auto-saved, in queue order. |
| DraftsStore.Store.FetchStats | apps/web/src/app/modules/campaigns/drafts/stores/useDraftsStore.ts:404-432 | Only the stats change, to those of the current drafts. |
| DraftsStore.Store.SetPage | apps/web/src/app/modules/campaigns/drafts/stores/useDraftsStore.ts:434-437 | Only the page changes. |
| DraftsStore.Store.SetPageSizeAction | apps/web/src/app/modules/campaigns/drafts/stores/useDraftsStore.ts:439-443 | The page size is set, back to page 1. |
| DraftsStore.Store.Reset | apps/web/src/app/modules/campaigns/drafts/stores/useDraftsStore.ts:447-458 | The store is back in its initial state. |
| DraftsStore.AutosaveScenario | apps/web/src/app/modules/campaigns/drafts/stores/useDraftsStore.ts:352-403 | After an edit and a queue run, the stored edit is auto-saved with the new title, the list holds it one version up, and the queue is empty. |
| AbTestTypes.WithId | apps/web/src/app/modules/campaigns/ab-tests/types.ts:12-24 | A variant built from an input and an id has that id, and removing the id gives the input back. |
| AbTestCalculations.ZScoreToConfidence | apps/web/src/app/modules/campaigns/ab-tests/utils/abtest-calculations.ts:20-28 | The confidence lies between 50 and 99. |
| AbTestCalculations.ConfidenceMonotone | apps/web/src/app/modules/campaigns/ab-tests/utils/abtest-calculations.ts:20-28 | The confidence depends only on the absolute z-score and never falls as it grows. |
| AbTestCalculations.CalculateSignificance | apps/web/src/app/modules/campaigns/ab-tests/utils/abtest-calculations.ts:33-72 | Significant exactly when the metric is testable and the z-score is at least 1.96 in size; an untestable metric gives zeros; a significant result has 95 or 99 confidence. |
| AbTestCalculations.MetricValueOrder | apps/web/src/app/modules/campaigns/ab-tests/utils/abtest-calculations.ts:125-140 | A lower cost per acquisition ranks higher, missing values count as 0, and an unknown metric ranks every variant equal. |
| AbTestCalculations.BestIndexIsFirstMaximum | apps/web/src/app/modules/campaigns/ab-tests/utils/abtest-calculations.ts:85-94 | The chosen variant has the greatest value, and every earlier variant a strictly smaller one. |
| AbTestCalculations.Improvement | apps/web/src/app/modules/campaigns/ab-tests/utils/abtest-calculations.ts:108-109 | A strictly better variant than a positive control improves by a positive percentage; against a zero control it is +Infinity. |
| AbTestCalculations.Winner | apps/web/src/app/modules/campaigns/ab-tests/utils/abtest-calculations.ts:77-120 | No winner with fewer than two variants or an untestable metric; a winner is the first best variant, is not the control, is significant at the required confidence, and carries the improvement over the control. |
| AbTestCalculations.WinnerBeatsControl | apps/web/src/app/modules/campaigns/ab-tests/utils/abtest-calculations.ts:85-109 | A declared winner beats the control strictly, so against a positive control the improvement is positive and finite. |
| AbTestCalculations.DetermineWinner | apps/web/src/app/modules/campaigns/ab-tests/utils/abtest-calculations.ts:77-120 | The loop returns exactly the winner the specification defines. |
| AbTestCalculations.Ceil | apps/web/src/app/modules/campaigns/ab-tests/utils/abtest-calculations.ts:161 | The ceiling is the least whole number at or above the value. |
| AbTestCalculations.SampleSize | apps/web/src/app/modules/campaigns/ab-tests/utils/abtest-calculations.ts:145-162 | A size is defined exactly when the two rates differ; otherwise the source divides by zero. |
| AbTestCalculations.RequiredSampleSize | apps/web/src/app/modules/campaigns/ab-tests/utils/abtest-calculations.ts:145-162 | A size is defined exactly when the baseline rate and the minimum detectable effect are non-zero. |
| AbTestCalculations.SampleSizeMonotone | apps/web/src/app/modules/campaigns/ab-tests/utils/abtest-calculations.ts:145-162 | A larger z-sum never asks for fewer samples. |
| AbTestCalculations.RequiredSampleSizeProperties | apps/web/src/app/modules/campaigns/ab-tests/utils/abtest-calculations.ts:145-162 | For rates in [0, 1] the required size is non-negative, and power 90 never asks for fewer samples than power 80. |
| AbTestCalculations.ReachedSignificanceNeeds | apps/web/src/app/modules/campaigns/ab-tests/utils/abtest-calculations.ts:167-180 | Significance needs a testable metric, enough impressions and a winner at 95% confidence or more. |
| AbTestCalculations.TestProgress | apps/web/src/app/modules/campaigns/ab-tests/utils/abtest-calculations.ts:185-202 | The progress is never +Infinity and a finite progress is at most 100. |
| AbTestCalculations.ProgressWithoutEnd | apps/web/src/app/modules/campaigns/ab-tests/utils/abtest-calculations.ts:185-202 | Without an end date the progress is the sample share, capped at 100. |
| AbTestCalculations.ProgressCoversTime | apps/web/src/app/modules/campaigns/ab-tests/utils/abtest-calculations.ts:185-202 | With an end date the progress is the larger of the sample and time shares, capped at 100. |
| AbTestCalculations.FormatMetricValue | apps/web/src/app/modules/campaigns/ab-tests/utils/abtest-calculations.ts:207-221 | Rates end with "%" and money values start with "$". |
| AbTestCalculations.MetricDisplayName | apps/web/src/app/modules/campaigns/ab-tests/utils/abtest-calculations.ts:226-235 | A name exists exactly for the five known metrics. |
| SanityChecks.ValidateTrafficSplit | apps/web/src/app/modules/campaigns/ab-tests/utils/sanity-checks.ts:16-45 | The pushed errors are exactly those the split rules define. |
| SanityChecks.RangeErrorsShape | apps/web/src/app/modules/campaigns/ab-tests/utils/sanity-checks.ts:35-42 | One range error per variant whose percentage is outside [0, 100], each on that variant's field. |
| SanityChecks.TrafficSplitRules | apps/web/src/app/modules/campaigns/ab-tests/utils/sanity-checks.ts:16-45 | With fewer than two variants the only error is that one; otherwise the total error appears exactly when the total is off 100 by more than 0.01, plus one error per out-of-range percentage. |
| SanityChecks.When | apps/web/src/app/modules/campaigns/ab-tests/utils/sanity-checks.ts:105-170 | A conditional push adds nothing exactly when its condition fails. |
| SanityChecks.VariantErrors | apps/web/src/app/modules/campaigns/ab-tests/utils/sanity-checks.ts:50-96 | A variant has no error exactly when its name, headline and call to action are not blank and its creative is complete. |
| SanityChecks.BasicErrors | apps/web/src/app/modules/campaigns/ab-tests/utils/sanity-checks.ts:105-133 | No basic error exactly when the name is not blank and at most 100 long, the campaign is set and there are 2 to 10 variants. |
| SanityChecks.DurationErrors | apps/web/src/app/modules/campaigns/ab-tests/utils/sanity-checks.ts:146-160 | No duration error exactly when the duration is absent, zero, or between 1 and 90. |
| SanityChecks.SampleSizeErrors | apps/web/src/app/modules/campaigns/ab-tests/utils/sanity-checks.ts:163-170 | No sample-size error exactly when it is absent, zero, or at least 100. |
| SanityChecks.CollectVariantErrors | apps/web/src/app/modules/campaigns/ab-tests/utils/sanity-checks.ts:136-139 | The loop pushes each variant's errors in index order. |
| SanityChecks.CollectRangeErrors | apps/web/src/app/modules/campaigns/ab-tests/utils/sanity-checks.ts:35-42 | The forEach pushes one range error, carrying its index, for each variant outside 0-100, in index order. |
| SanityChecks.ValidateAbTest | apps/web/src/app/modules/campaigns/ab-tests/utils/sanity-checks.ts:101-173 | The pushed errors are exactly those the rules define, in order. |
| SanityChecks.TrafficSplitErrorsEmptyIff | apps/web/src/app/modules/campaigns/ab-tests/utils/sanity-checks.ts:16-45 | The split passes exactly when there are two variants or more, the total is within 0.01 of 100 and every percentage is in [0, 100]. |
| SanityChecks.AbTestValidIff | apps/web/src/app/modules/campaigns/ab-tests/utils/sanity-checks.ts:101-173 | A configuration is accepted exactly when every rule holds; an absent or zero duration or sample size is not checked. |
| SanityChecks.SingleVariantBothErrors | apps/web/src/app/modules/campaigns/ab-tests/utils/sanity-checks.ts:121-126 | With one variant both the configuration and the split report the "variants" error. |
| SanityChecks.StartInput | apps/web/src/app/modules/campaigns/ab-tests/utils/sanity-checks.ts:178-201 | The input validated before a start has the test's variants, one for one. |
| SanityChecks.CanStartTest | apps/web/src/app/modules/campaigns/ab-tests/utils/sanity-checks.ts:178-201 | A start is allowed exactly when the test is a draft with no validation error; a refusal gives the status reason or the list of validation errors. |
| SanityChecks.TooFewVariantsNeverStart | apps/web/src/app/modules/campaigns/ab-tests/utils/sanity-checks.ts:178-201 | A test with fewer than two variants can never start. |
| SanityChecks.CanStopTest | apps/web/src/app/modules/campaigns/ab-tests/utils/sanity-checks.ts:206-212 | A stop is allowed exactly when the test runs or is paused; otherwise the reason says so. |
| SanityChecks.StartAndStopExclusive | apps/web/src/app/modules/campaigns/ab-tests/utils/sanity-checks.ts:178-212 | No test may both start and stop. |
| SanityChecks.HasMinimumSampleSizeProperties | apps/web/src/app/modules/campaigns/ab-tests/utils/sanity-checks.ts:217-221 | False without metrics; a test that meets a size meets every smaller one. |
| SanityChecks.TestHealthStatus | apps/web/src/app/modules/campaigns/ab-tests/utils/sanity-checks.ts:226-265 | Each issue is reported exactly when its condition holds, and the status is healthy, warning or error for zero, one or more issues. |
| SanityChecks.ErrorHealthNeedsUnevenTraffic | apps/web/src/app/modules/campaigns/ab-tests/utils/sanity-checks.ts:226-265 | A test cannot be both running and paused, so an "error" health always includes uneven traffic. |
| SanityChecks.EqualImpressionsBalanced | apps/web/src/app/modules/campaigns/ab-tests/utils/sanity-checks.ts:243-252 | Equal impressions are never uneven. |
| TrafficSplitter.SumConcat | apps/web/src/app/modules/campaigns/ab-tests/components/TrafficSplitter.tsx:31 | The total of two lists one after the other is the sum of their totals. |
| TrafficSplitter.Clamp | apps/web/src/app/modules/campaigns/ab-tests/components/TrafficSplitter.tsx:51-54 | The clamped value lies in [0, 100] and a value already there is kept. |
| TrafficSplitter.Rebalanced | apps/web/src/app/modules/campaigns/ab-tests/components/TrafficSplitter.tsx:34-62 | The changed variant takes the new value and the list keeps its length. |
| TrafficSplitter.RebalancedOthers | apps/web/src/app/modules/campaigns/ab-tests/components/TrafficSplitter.tsx:44-56 | The other percentages move only when they have a positive total and the change exceeds 0.01; then each takes its proportional share of the change, kept in [0, 100]. |
| TrafficSplitter.SumShiftAll | apps/web/src/app/modules/campaigns/ab-tests/components/TrafficSplitter.tsx:48-55 | Shifting every element by its share takes the change times their share of the total off their sum. |
| TrafficSplitter.RebalancedKeepsTotal | apps/web/src/app/modules/campaigns/ab-tests/components/TrafficSplitter.tsx:34-62 | When no percentage is clamped, a change keeps the total: the others absorb exactly the change. |
| TrafficSplitter.EqualSplit | apps/web/src/app/modules/campaigns/ab-tests/components/TrafficSplitter.tsx:74-82 | An equal split has one share per variant. |
| TrafficSplitter.EqualSplitTotals100 | apps/web/src/app/modules/campaigns/ab-tests/components/TrafficSplitter.tsx:74-82 | An equal split of a non-empty list totals exactly 100. |
| TrafficSplitter.Splitter.constructor | apps/web/src/app/modules/campaigns/ab-tests/components/TrafficSplitter.tsx:24 | The local copy holds the given percentages in a new array. |
| TrafficSplitter.Splitter.HandlePercentageChange | apps/web/src/app/modules/campaigns/ab-tests/components/TrafficSplitter.tsx:34-62 | The same variant objects are updated in place to the rebalanced percentages. |
| TrafficSplitter.Splitter.HandleInputChange | apps/web/src/app/modules/campaigns/ab-tests/components/TrafficSplitter.tsx:64-72 | A parsed value in [0, 100] rebalances; anything else, NaN included, changes nothing. |
| TrafficSplitter.Splitter.HandleEqualSplit | apps/web/src/app/modules/campaigns/ab-tests/components/TrafficSplitter.tsx:74-82 | New variant objects get the equal split and the old array is left as it was. |
| TrafficSplitter.RebalanceScenario | apps/web/src/app/modules/campaigns/ab-tests/components/TrafficSplitter.tsx:32-62 | Moving one of two 70/30 variants to 50 gives 50/50, which is valid. |
| AbTestEditor.InitialVariantsSplitEvenly | apps/web/src/app/modules/campaigns/ab-tests/components/AbTestEditorModal.tsx:65-80 | The form starts with two variants at 50% each, totalling 100. |
| AbTestEditor.EqualShares | apps/web/src/app/modules/campaigns/ab-tests/components/AbTestEditorModal.tsx:127-145 | Every variant gets 100 / n and keeps its other fields. |
| AbTestEditor.EqualSharesTotal100 | apps/web/src/app/modules/campaigns/ab-tests/components/AbTestEditorModal.tsx:127-145 | Equal shares of a non-empty list total 100. |
| AbTestEditor.AddVariant | apps/web/src/app/modules/campaigns/ab-tests/components/AbTestEditorModal.tsx:126-139 | One more variant, every share 100 / (n + 1), the old ones otherwise unchanged, the new one named "Variante" and the letter 65 + n - 1. |
| AbTestEditor.RemoveAt | apps/web/src/app/modules/campaigns/ab-tests/components/AbTestEditorModal.tsx:143 | Removing an index in range drops one variant; an index out of range keeps them all. |
| AbTestEditor.RemoveVariant | apps/web/src/app/modules/campaigns/ab-tests/components/AbTestEditorModal.tsx:141-146 | Two or fewer variants are kept as they are; otherwise one is removed and the rest split evenly, leaving at least two. |
| AbTestEditor.AddThenRemoveLast | apps/web/src/app/modules/campaigns/ab-tests/components/AbTestEditorModal.tsx:126-146 | Removing the variant just added gives the original variants back, evenly split. |
| AbTestEditor.ChangeVariant | apps/web/src/app/modules/campaigns/ab-tests/components/AbTestEditorModal.tsx:148-152 | Only the variant at the index is replaced. |
| AbTestEditor.Messages | apps/web/src/app/modules/campaigns/ab-tests/components/AbTestEditorModal.tsx:168 | One message per error. |
| AbTestEditor.SaveGatedByValidation | apps/web/src/app/modules/campaigns/ab-tests/components/AbTestEditorModal.tsx:154-183 | onSave is called, with the form's input, exactly when validation finds nothing; the dialog closes exactly when it then resolves; a rejected form shows every validation message, a failed save its message. |
| AbTestEditor.SaveSteps | apps/web/src/app/modules/campaigns/ab-tests/components/AbTestEditorModal.tsx:166-182 | The save steps give exactly the specified outcome. |
| AbTestEditor.Dialog.constructor | apps/web/src/app/modules/campaigns/ab-tests/components/AbTestEditorModal.tsx:56-83 | The form starts in its reset state, not saving. |
| AbTestEditor.Dialog.Initialize | apps/web/src/app/modules/campaigns/ab-tests/components/AbTestEditorModal.tsx:86-124 | Without a test the form resets; with one it copies the test's fields, the variants without ids, and 14 days and 10000 samples for absent or zero values; the tab is "basic" and the errors are cleared. |
| AbTestEditor.Dialog.HandleAddVariant | apps/web/src/app/modules/campaigns/ab-tests/components/AbTestEditorModal.tsx:126-139 | The variants become the specified list with one more variant. |
| AbTestEditor.Dialog.HandleRemoveVariant | apps/web/src/app/modules/campaigns/ab-tests/components/AbTestEditorModal.tsx:141-146 | The variants become the specified list with one removed. |
| AbTestEditor.Dialog.HandleVariantChange | apps/web/src/app/modules/campaigns/ab-tests/components/AbTestEditorModal.tsx:148-152 | The variants become the list with the one at the index replaced. |
| AbTestEditor.Dialog.HandleSave | apps/web/src/app/modules/campaigns/ab-tests/components/AbTestEditorModal.tsx:154-183 | The outcome is the specified save outcome and saving is off at the end. |
| AbTestEditor.BlankNameRejected | apps/web/src/app/modules/campaigns/ab-tests/components/AbTestEditorModal.tsx:166-170 | A form without a name never reaches onSave and shows "Test name is required". |
| AbTestEditor.SaveScenario | apps/web/src/app/modules/campaigns/ab-tests/components/AbTestEditorModal.tsx:154-170 | Saving a fresh form shows the errors and leaves the dialog open. |
| AbTestEditor.AddRemoveScenario | apps/web/src/app/modules/campaigns/ab-tests/components/AbTestEditorModal.tsx:126-146 | Adding to a fresh form gives three equal shares named up to "Variante B" totalling 100; removing it gives two halves. |
| AbTestsStore.MergeFilters | apps/web/src/app/modules/campaigns/ab-tests/store/useAbTestsStore.ts:337-341 | Merging no filter change keeps the filters. |
| AbTestsStore.FetchTestsEffect | apps/web/src/app/modules/campaigns/ab-tests/store/useAbTestsStore.ts:107-148 | The fetched tests are the mock tests that match the merged filters, in order, whatever the store held; the total counts them; stored filters and selection are kept. |
| AbTestsStore.FetchWithInitialFilters | apps/web/src/app/modules/campaigns/ab-tests/store/useAbTestsStore.ts:72-79 | With the initial filters the whole mock list comes back. |
| AbTestsStore.WithNewIds | apps/web/src/app/modules/campaigns/ab-tests/store/useAbTestsStore.ts:149-179 | Each variant gets the fresh id for its index. |
| AbTestsStore.CreateDraftEffect | apps/web/src/app/modules/campaigns/ab-tests/store/useAbTestsStore.ts:149-179 | A created test is a draft put first, with the input's fields, fresh variant ids, no start, winner or metrics; the total grows by one. |
| AbTestsStore.WithKeptIds | apps/web/src/app/modules/campaigns/ab-tests/store/useAbTestsStore.ts:180-217 | Each variant gets the id of the earlier variant at its index, or a fresh one. |
| AbTestsStore.UpdateMatching | apps/web/src/app/modules/campaigns/ab-tests/store/useAbTestsStore.ts:180-217 | Every test goes through the update when its id matches. |
| AbTestsStore.FindTest | apps/web/src/app/modules/campaigns/ab-tests/store/useAbTestsStore.ts:356 | The test found is the first in the list with the id; nothing is found exactly when no test has it. |
| AbTestsStore.UpdateDraftEffect | apps/web/src/app/modules/campaigns/ab-tests/store/useAbTestsStore.ts:180-217 | Only tests with the id change: stamped now, status kept, variants replaced with ids kept by index when there was one, or left alone. |
| AbTestsStore.UpdateDraftOutcome | apps/web/src/app/modules/campaigns/ab-tests/store/useAbTestsStore.ts:180-217 | The update resolves with the test exactly when one had the id; otherwise it rejects with "Test not found" and the tests are unchanged. |
| AbTestsStore.DeleteDraftEffect | apps/web/src/app/modules/campaigns/ab-tests/store/useAbTestsStore.ts:218-236 | Exactly the tests and selected ids other than the id remain, and the total falls by one; an unknown id keeps the list. |
| AbTestsStore.Lifecycle | apps/web/src/app/modules/campaigns/ab-tests/store/useAbTestsStore.ts:237-298 | Every test goes through the transition when its id matches. |
| AbTestsStore.LifecycleEffect | apps/web/src/app/modules/campaigns/ab-tests/store/useAbTestsStore.ts:237-298 | Only matching tests change: start sets "running" and the start date, stop sets "completed", the end date and the winner, a status update sets the status and the time. |
| AbTestsStore.StatusActionsEffect | apps/web/src/app/modules/campaigns/ab-tests/store/useAbTestsStore.ts:237-296 | Publishing sets a matching test back to "draft", pausing to "paused", resuming to "running" and archiving to "archived", each with the time; other tests are untouched. |
| AbTestsStore.BulkAllEffect | apps/web/src/app/modules/campaigns/ab-tests/store/useAbTestsStore.ts:299-316 | After a bulk action every listed test has its status, every other test is unchanged, and the ids keep their places. |
| AbTestsStore.ToggleSelectionTwice | apps/web/src/app/modules/campaigns/ab-tests/store/useAbTestsStore.ts:320-326 | Toggling twice restores the selection's members, and the selection itself when the id was absent. |
| AbTestsStore.SelectAll | apps/web/src/app/modules/campaigns/ab-tests/store/useAbTestsStore.ts:327-331 | The selection becomes the ids of all tests, in order. |
| AbTestsStore.SetFilters | apps/web/src/app/modules/campaigns/ab-tests/store/useAbTestsStore.ts:337-341 | Each filter field given replaces the old one and each one not given is kept; the page is not reset, and the tests, the pagination and everything else stay. |
| AbTestsStore.SetPagination | apps/web/src/app/modules/campaigns/ab-tests/store/useAbTestsStore.ts:342-346 | Given pagination fields replace the old ones and the rest are kept. |
| AbTestsStore.ClearFilters | apps/web/src/app/modules/campaigns/ab-tests/store/useAbTestsStore.ts:349-355 | The initial filters, and the initial pagination counting the current tests. |
| AbTestsStore.ClearFiltersForgets | apps/web/src/app/modules/campaigns/ab-tests/store/useAbTestsStore.ts:337-355 | Clearing forgets any earlier filter or pagination change. |
| AbTestsStore.Store.constructor | apps/web/src/app/modules/campaigns/ab-tests/store/useAbTestsStore.ts:96-104 | The store starts with the mock tests and the initial filters, pagination and sorting. |
| AbTestsStore.Store.FetchTestsAction | apps/web/src/app/modules/campaigns/ab-tests/store/useAbTestsStore.ts:107-148 | The state becomes the fetched state. |
| AbTestsStore.Store.CreateDraftAction | apps/web/src/app/modules/campaigns/ab-tests/store/useAbTestsStore.ts:149-179 | The new test is returned and put first. |
| AbTestsStore.Store.UpdateDraftAction | apps/web/src/app/modules/campaigns/ab-tests/store/useAbTestsStore.ts:180-217 | State and outcome are those of the update. |
| AbTestsStore.Store.DeleteDraftAction | apps/web/src/app/modules/campaigns/ab-tests/store/useAbTestsStore.ts:218-236 | The test leaves the list and the selection. |
| AbTestsStore.Store.StartAction | apps/web/src/app/modules/campaigns/ab-tests/store/useAbTestsStore.ts:241-260 | The test starts. |
| AbTestsStore.Store.StopAction | apps/web/src/app/modules/campaigns/ab-tests/store/useAbTestsStore.ts:269-293 | The test stops with the winner. |
| AbTestsStore.Store.UpdateStatusAction | apps/web/src/app/modules/campaigns/ab-tests/store/useAbTestsStore.ts:361-379 | The test takes the status. |
| AbTestsStore.Store.BulkAction | apps/web/src/app/modules/campaigns/ab-tests/store/useAbTestsStore.ts:299-316 | The single action runs for each id, in order. |
| AbTestsStore.Store.SetSelectedTestIds | apps/web/src/app/modules/campaigns/ab-tests/store/useAbTestsStore.ts:318 | Only the selection changes. |
| AbTestsStore.Store.ToggleTestSelection | apps/web/src/app/modules/campaigns/ab-tests/store/useAbTestsStore.ts:320-326 | The selection toggles the id. |
| AbTestsStore.Store.SelectAllAction | apps/web/src/app/modules/campaigns/ab-tests/store/useAbTestsStore.ts:327-331 | Every test is selected. |
| AbTestsStore.Store.ClearSelection | apps/web/src/app/modules/campaigns/ab-tests/store/useAbTestsStore.ts:332 | The selection is emptied. |
| AbTestsStore.Store.SetEditingDraft | apps/web/src/app/modules/campaigns/ab-tests/store/useAbTestsStore.ts:334 | Only the editing draft changes. |
| AbTestsStore.Store.SetFiltersAction | apps/web/src/app/modules/campaigns/ab-tests/store/useAbTestsStore.ts:337-341 | The filters are merged. |
| AbTestsStore.Store.SetPaginationAction | apps/web/src/app/modules/campaigns/ab-tests/store/useAbTestsStore.ts:342-346 | The pagination is merged. |
| AbTestsStore.Store.SetSorting | apps/web/src/app/modules/campaigns/ab-tests/store/useAbTestsStore.ts:347 | Only the sorting changes. |
| AbTestsStore.Store.ClearFiltersAction | apps/web/src/app/modules/campaigns/ab-tests/store/useAbTestsStore.ts:349-355 | Filters and pagination are reset. |
| AbTestsStore.Store.GetTestById | apps/web/src/app/modules/campaigns/ab-tests/store/useAbTestsStore.ts:356 | The test returned is the first in the store with the id; nothing is returned exactly when no test has it. |
| AbTestsStore.Store.ClearError | apps/web/src/app/modules/campaigns/ab-tests/store/useAbTestsStore.ts:358 | Only the error is cleared. |
| AbTestsStore.CreateStartScenario | apps/web/src/app/modules/campaigns/ab-tests/store/useAbTestsStore.ts:149-179 | A created draft is found by its id, and once started it is running from the start time. |
| AbTestsStore.FilterScenario | apps/web/src/app/modules/campaigns/ab-tests/store/useAbTestsStore.ts:107-148 | With a status filter, a fetch returns exactly the mock tests of that status. |
| TemplateStore.FindTemplate | apps/web/src/app/modules/campaigns/templates/stores/templateStore.ts:78-123 | The template found is the first in the list with the id; nothing is found exactly when no template has it. |
| TemplateStore.CreateTemplateEffect | apps/web/src/app/modules/campaigns/templates/stores/templateStore.ts:43-74 | The new template is put first and can be found by its id; it takes the input's fields, a draft status, fresh statistics, no favourite or sharing flag, the current user, both times now, the input's tags or none, and the channels of the structure's basic info. |
| TemplateStore.EditMatching | apps/web/src/app/modules/campaigns/templates/stores/templateStore.ts:149-204 | Every template with the id is edited, the others kept, in place. |
| TemplateStore.EditKeepsIds | apps/web/src/app/modules/campaigns/templates/stores/templateStore.ts:149-204 | No edit changes a template's id. |
| TemplateStore.EditNoMatch | apps/web/src/app/modules/campaigns/templates/stores/templateStore.ts:149-204 | When no template has the id, nothing changes. |
| TemplateStore.UpdateTemplateEffect | apps/web/src/app/modules/campaigns/templates/stores/templateStore.ts:75-104 | Only templates with the id change: they keep id, creation date, statistics, status, flags and author, take the supplied fields and the time; the channels follow a supplied structure. |
| TemplateStore.UpdateTemplateOutcome | apps/web/src/app/modules/campaigns/templates/stores/templateStore.ts:75-104 | The update resolves with the template exactly when one had the id; otherwise it rejects with "Template not found" and no template changes. |
| TemplateStore.DeleteTemplateEffect | apps/web/src/app/modules/campaigns/templates/stores/templateStore.ts:105-119 | Exactly the templates other than the id remain, in order; the selection is dropped exactly when it was the deleted template. |
| TemplateStore.CloneTemplateEffect | apps/web/src/app/modules/campaigns/templates/stores/templateStore.ts:120-148 | An unknown id rejects; otherwise the copy is put first before the unchanged list, named with " (Copie)", unused, not a favourite, with the original's category, status, structure, tags, channels, description and sharing flag. |
| TemplateStore.ToggleFavoriteEffect | apps/web/src/app/modules/campaigns/templates/stores/templateStore.ts:149-156 | Exactly the templates with the id change, and only in their favourite mark. |
| TemplateStore.ToggleFavoriteTwice | apps/web/src/app/modules/campaigns/templates/stores/templateStore.ts:149-156 | Toggling twice restores the store. |
| TemplateStore.ArchiveRestoreEffect | apps/web/src/app/modules/campaigns/templates/stores/templateStore.ts:157-188 | Archiving marks exactly the templates with the id archived, restoring marks them active; both stamp the time and touch nothing else. |
| TemplateStore.RestoreAfterArchive | apps/web/src/app/modules/campaigns/templates/stores/templateStore.ts:157-188 | Restoring after archiving brings the templates back to active. |
| TemplateStore.IncrementUsageEffect | apps/web/src/app/modules/campaigns/templates/stores/templateStore.ts:189-204 | The matching templates' usage count grows by one and their last use is now; all else is kept. |
| TemplateStore.Store.constructor | apps/web/src/app/modules/campaigns/templates/stores/templateStore.ts:33-37 | The store starts with the mock templates, no selection, not loading and no error. |
| TemplateStore.Store.SetTemplates | apps/web/src/app/modules/campaigns/templates/stores/templateStore.ts:39 | Only the templates change. |
| TemplateStore.Store.SetSelectedTemplate | apps/web/src/app/modules/campaigns/templates/stores/templateStore.ts:41 | Only the selection changes. |
| TemplateStore.Store.CreateTemplateAction | apps/web/src/app/modules/campaigns/templates/stores/templateStore.ts:43-74 | State and result are those of the creation. |
| TemplateStore.Store.UpdateTemplateAction | apps/web/src/app/modules/campaigns/templates/stores/templateStore.ts:75-104 | State and outcome are those of the update. |
| TemplateStore.Store.DeleteTemplateAction | apps/web/src/app/modules/campaigns/templates/stores/templateStore.ts:105-119 | The state is that of the deletion. |
| TemplateStore.Store.CloneTemplateAction | apps/web/src/app/modules/campaigns/templates/stores/templateStore.ts:120-148 | State and outcome are those of the clone. |
| TemplateStore.Store.ToggleFavoriteAction | apps/web/src/app/modules/campaigns/templates/stores/templateStore.ts:149-156 | The favourite mark of the template toggles. |
| TemplateStore.Store.ArchiveTemplateAction | apps/web/src/app/modules/campaigns/templates/stores/templateStore.ts:157-172 | The template is archived. |
| TemplateStore.Store.RestoreTemplateAction | apps/web/src/app/modules/campaigns/templates/stores/templateStore.ts:173-188 | The template is restored. |
| TemplateStore.Store.IncrementUsageAction | apps/web/src/app/modules/campaigns/templates/stores/templateStore.ts:189-204 | The template's usage is counted. |
| TemplateStore.Store.FetchTemplatesAction | apps/web/src/app/modules/campaigns/templates/stores/templateStore.ts:206-217 | The mock templates are loaded. |
| TemplateStore.Store.ClearError | apps/web/src/app/modules/campaigns/templates/stores/templateStore.ts:218 | Only the error is cleared. |
| TemplateStore.CreateCloneScenario | apps/web/src/app/modules/campaigns/templates/stores/templateStore.ts:43-148 | Creating and cloning gives two templates, the copy named as a copy and unused; an unknown id rejects with the store's message. |
| TemplateFiltersStore.ToggleFilterEffect | apps/web/src/app/modules/campaigns/templates/stores/templateFiltersStore.ts:46-85 | A toggle flips its value's membership in its own list and changes nothing else. |
| TemplateFiltersStore.ToggleFilterTwice | apps/web/src/app/modules/campaigns/templates/stores/templateFiltersStore.ts:46-85 | Toggling the same value twice restores every list's members, and the whole state when the value was absent. |
| TemplateFiltersStore.SearchAndFavoritesEffect | apps/web/src/app/modules/campaigns/templates/stores/templateFiltersStore.ts:41-93 | Setting the search changes only the search text; the favourites flag negates and toggling it twice changes nothing. |
| TemplateFiltersStore.SetSortingEffect | apps/web/src/app/modules/campaigns/templates/stores/templateFiltersStore.ts:94-103 | The field is set; a given direction is used, otherwise it is descending exactly when that field was already sorted ascending. |
| TemplateFiltersStore.SetSortingCycles | apps/web/src/app/modules/campaigns/templates/stores/templateFiltersStore.ts:94-103 | Choosing the same field again without a direction goes ascending, descending, ascending. |
| TemplateFiltersStore.ClearAndResetEffect | apps/web/src/app/modules/campaigns/templates/stores/templateFiltersStore.ts:106-120 | Clearing resets the filters and keeps sorting and view; resetting also resets the sorting; neither depends on earlier filter changes. |
| TemplateFiltersStore.Store.constructor | apps/web/src/app/modules/campaigns/templates/stores/templateFiltersStore.ts:35-38 | The store starts with the default filters, the default sorting and the grid view. |
| TemplateFiltersStore.Store.SetSearchAction | apps/web/src/app/modules/campaigns/templates/stores/templateFiltersStore.ts:41-45 | The search is set. |
| TemplateFiltersStore.Store.ToggleCategory | apps/web/src/app/modules/campaigns/templates/stores/templateFiltersStore.ts:46-55 | The category is toggled. |
| TemplateFiltersStore.Store.ToggleChannel | apps/web/src/app/modules/campaigns/templates/stores/templateFiltersStore.ts:56-65 | The channel is toggled. |
| TemplateFiltersStore.Store.ToggleStatus | apps/web/src/app/modules/campaigns/templates/stores/templateFiltersStore.ts:66-75 | The status is toggled. |
| TemplateFiltersStore.Store.ToggleTag | apps/web/src/app/modules/campaigns/templates/stores/templateFiltersStore.ts:76-85 | The tag is toggled. |
| TemplateFiltersStore.Store.ToggleFavoritesOnlyAction | apps/web/src/app/modules/campaigns/templates/stores/templateFiltersStore.ts:86-93 | The favourites flag is toggled. |
| TemplateFiltersStore.Store.SetSortingAction | apps/web/src/app/modules/campaigns/templates/stores/templateFiltersStore.ts:94-103 | The sorting is set. |
| TemplateFiltersStore.Store.SetViewModeAction | apps/web/src/app/modules/campaigns/templates/stores/templateFiltersStore.ts:104 | Only the view mode changes. |
| TemplateFiltersStore.Store.ClearFiltersAction | apps/web/src/app/modules/campaigns/templates/stores/templateFiltersStore.ts:106-110 | The filters are cleared. |
| TemplateFiltersStore.Store.ResetFiltersAction | apps/web/src/app/modules/campaigns/templates/stores/templateFiltersStore.ts:111-118 | Filters and sorting are reset. |
| TemplateFiltersStore.FilterScenario | apps/web/src/app/modules/campaigns/templates/stores/templateFiltersStore.ts:76-110 | After picking a tag, the list view and sorting by name twice, clearing removes the tag and keeps the view and the descending name sort. |
| TemplateHelpers.ApplyFiltersEffect | apps/web/src/app/modules/campaigns/templates/utils/templateHelpers.ts:7-49 | The result keeps input order and holds exactly the templates that pass every active filter: search, category and status membership, a shared channel and tag, and the favourites flag. |
| TemplateHelpers.NoFiltersKeepAll | apps/web/src/app/modules/campaigns/templates/utils/templateHelpers.ts:7-49 | With no active filter every template is kept, in order. |
| TemplateHelpers.SearchIgnoresCase | apps/web/src/app/modules/campaigns/templates/utils/templateHelpers.ts:10-18 | The search ignores the case of the text typed. |
| TemplateHelpers.NameMatchesSearch | apps/web/src/app/modules/campaigns/templates/utils/templateHelpers.ts:13 | A template whose name contains the text, in any case, passes the search. |
| TemplateHelpers.ApplySortingEffect | apps/web/src/app/modules/campaigns/templates/utils/templateHelpers.ts:54-81 | The sorted copy is a permutation of the input, ordered by the field in the direction, stable for equal values; an unknown field keeps the input order. |
| TemplateHelpers.SortByNameOrdersNames | apps/web/src/app/modules/campaigns/templates/utils/templateHelpers.ts:61-63 | Sorting by name ascending puts the names in order. |
| TemplateHelpers.AddAllContents | apps/web/src/app/modules/campaigns/templates/utils/templateHelpers.ts:88-90 | Adding values to a set keeps each once and holds exactly the old and new values. |
| TemplateHelpers.CollectedContents | apps/web/src/app/modules/campaigns/templates/utils/templateHelpers.ts:87-90 | The gathered set holds each value of some template once. |
| TemplateHelpers.SortedUniqueIncreasing | apps/web/src/app/modules/campaigns/templates/utils/templateHelpers.ts:91 | A sorted list without repeats is strictly increasing. |
| TemplateHelpers.AllValues | apps/web/src/app/modules/campaigns/templates/utils/templateHelpers.ts:86-103 | The loops and the sort give every value of some template once, in increasing order. |
| TemplateHelpers.AddEach | apps/web/src/app/modules/campaigns/templates/utils/templateHelpers.ts:89 | The inner forEach adds each value not yet in the set, once, in first-seen order. |
| TemplateHelpers.GetAllTags | apps/web/src/app/modules/campaigns/templates/utils/templateHelpers.ts:86-92 | Every tag of some template, once each, in increasing order. |
| TemplateHelpers.GetAllChannels | apps/web/src/app/modules/campaigns/templates/utils/templateHelpers.ts:97-103 | Every channel of some template, once each, in increasing order. |
| TemplateHelpers.UsagePoints | apps/web/src/app/modules/campaigns/templates/utils/templateHelpers.ts:113 | Usage gives at most 30 points, and none negative for a non-negative count. |
| TemplateHelpers.CtrPoints | apps/web/src/app/modules/campaigns/templates/utils/templateHelpers.ts:116-118 | Click-through gives at most 25 points. |
| TemplateHelpers.ConversionPoints | apps/web/src/app/modules/campaigns/templates/utils/templateHelpers.ts:121-123 | Conversion gives at most 25 points. |
| TemplateHelpers.SuccessPoints | apps/web/src/app/modules/campaigns/templates/utils/templateHelpers.ts:126-128 | Success gives at most 20 points. |
| TemplateHelpers.PerformanceScoreBounds | apps/web/src/app/modules/campaigns/templates/utils/templateHelpers.ts:108-131 | The score never exceeds 100, and with non-negative statistics is at least 0. |
| TemplateHelpers.PerformanceScoreExtremes | apps/web/src/app/modules/campaigns/templates/utils/templateHelpers.ts:108-131 | At 15 uses, a click-through of 5, a conversion of 10 and a success of 100 the score is exactly 100; an unused template scores 0. |
| TemplateHelpers.FormatTemplateDateBuckets | apps/web/src/app/modules/campaigns/templates/utils/templateHelpers.ts:136-147 | Under a day is today, then yesterday, then days up to 6, weeks up to 4, months up to 12 and years; a future date gives a negative day count. |
| TemplateHelpers.CategoryLabelsDistinct | apps/web/src/app/modules/campaigns/templates/utils/templateHelpers.ts:152-164 | Every category has a label of its own. |
| TemplateHelpers.StatusConfigsDistinct | apps/web/src/app/modules/campaigns/templates/utils/templateHelpers.ts:169-192 | Each status has its own label and colour. |
| CreateTypes.StepIdInjective | apps/web/src/app/modules/campaigns/create/types.ts:204-212 | Two steps have the same identifier string exactly when they are the same step. |
| WizardValidators.ParsePlanning | apps/web/src/app/modules/campaigns/create/components/wizard/validators.ts:127-140 | The planning parses exactly when both dates are non-empty, the budget is positive, the currency is known or absent, and the start is before the end; the parse fills the timezone, currency and daily flag defaults and keeps the rest. |
| WizardValidators.ParsePlanningRoundTrip | apps/web/src/app/modules/campaigns/create/components/wizard/validators.ts:127-140 | A parsed planning, given back with every field present, parses to itself. |
| WizardValidators.PlanningDateRule | apps/web/src/app/modules/campaigns/create/components/wizard/validators.ts:137-140 | The date refinement is strict, and a date the parser rejects fails it. |
| WizardValidators.TrackingSumRule | apps/web/src/app/modules/campaigns/create/components/wizard/validators.ts:170-192 | With A/B testing off, or without variants, the percentages are not looked at; with it on the variants must total exactly 100, so an empty list fails. |
| WizardValidators.TotalPercentageBounds | apps/web/src/app/modules/campaigns/create/components/wizard/validators.ts:162-183 | Valid variants each add between 0 and 100, so n of them total at most 100 n. |
| WizardValidators.ParseTracking | apps/web/src/app/modules/campaigns/create/components/wizard/validators.ts:143-192 | Without an A/B flag the step parses exactly when the UTM fields and every variant are valid; the parse defaults the flag to false and keeps the rest. |
| WizardValidators.ParseValidation | apps/web/src/app/modules/campaigns/create/components/wizard/validators.ts:204-222 | The parse defaults the publish mode to "draft" and keeps the date and the checklist. |
| WizardValidators.ValidationScheduleRule | apps/web/src/app/modules/campaigns/create/components/wizard/validators.ts:204-222 | Only a scheduled publication needs its date, and an empty date does not count; without a mode the step is a draft and passes. |
| WizardValidators.WizardDataGuarantees | apps/web/src/app/modules/campaigns/create/components/wizard/validators.ts:43-125 | A valid wizard has a named campaign on a known channel, media with a URL, a segment, a positive budget over a non-empty period and the three UTM fields. |
| WizardContext.MergeLaws | apps/web/src/app/modules/campaigns/create/context/WizardContext.tsx:59-65 | The new data's keys win and the others stay; merging is associative, the empty object is neutral, and merging the same data twice is merging it once. |
| WizardContext.ReduceEffect | apps/web/src/app/modules/campaigns/create/context/WizardContext.tsx:51-93 | Each action changes only its own fields: the step, the validity, merged data with the dirty flag, one more completed step, a save clearing the dirty flag with its time, a loaded state, or nothing. |
| WizardContext.CompleteStepIdempotent | apps/web/src/app/modules/campaigns/create/context/WizardContext.tsx:66-73 | Completing a step twice is completing it once, and it never duplicates a step. |
| WizardContext.ReduceAllNoDuplicates | apps/web/src/app/modules/campaigns/create/context/WizardContext.tsx:51-93 | Completed steps stay free of duplicates through any run of actions whose loaded drafts are. |
| WizardContext.IndexOf | apps/web/src/app/modules/campaigns/create/context/WizardContext.tsx:175-176 | The index is -1 exactly when the step is not in the order, and otherwise points at it. |
| WizardContext.NavigationRule | apps/web/src/app/modules/campaigns/create/context/WizardContext.tsx:165-182 | Going back or staying is allowed, one step forward is allowed, two or more are not; "template" is always reachable and from it only "basic_info" lies ahead. |
| WizardContext.GetStepProgress | apps/web/src/app/modules/campaigns/create/context/WizardContext.tsx:191-194 | The progress is the completed count out of six as a rounded percentage. |
| WizardContext.CompletedAfterCompleteStep | apps/web/src/app/modules/campaigns/create/context/WizardContext.tsx:184-189 | After a step is completed, a step counts as completed exactly when it is that step or was completed before. |
| WizardContext.AtMostSevenSteps | apps/web/src/app/modules/campaigns/create/types.ts:204-212 | A duplicate-free step list has at most seven entries. |
| WizardContext.StepProgressRange | apps/web/src/app/modules/campaigns/create/context/WizardContext.tsx:191-194 | Progress lies in [0, 117]: the six numbered steps give 100, and "template" as well gives 117, since the formula divides by six. |
| WizardContext.Provider.constructor | apps/web/src/app/modules/campaigns/create/context/WizardContext.tsx:97-114 | The provider starts from the initial state and loads the stored draft when there is one. |
| WizardContext.Provider.Dispatch | apps/web/src/app/modules/campaigns/create/context/WizardContext.tsx:98 | A dispatch replaces the state by the reducer's result. |
| WizardContext.Provider.SetCurrentStep | apps/web/src/app/modules/campaigns/create/context/WizardContext.tsx:116-118 | Dispatches the step change. |
| WizardContext.Provider.UpdateStepData | apps/web/src/app/modules/campaigns/create/context/WizardContext.tsx:120-122 | Dispatches the data update. |
| WizardContext.Provider.CompleteStepAction | apps/web/src/app/modules/campaigns/create/context/WizardContext.tsx:124-126 | Dispatches the completion. |
| WizardContext.Provider.SetStepValidity | apps/web/src/app/modules/campaigns/create/context/WizardContext.tsx:128-130 | Dispatches the validity. |
| WizardContext.Provider.SaveDraftAction | apps/web/src/app/modules/campaigns/create/context/WizardContext.tsx:132-151 | The state before the save is stored, then the save is dispatched. |
| WizardContext.Provider.LoadDraftAction | apps/web/src/app/modules/campaigns/create/context/WizardContext.tsx:153-163 | A stored draft replaces the state; without one nothing changes. |
| WizardContext.SaveLoadScenario | apps/web/src/app/modules/campaigns/create/context/WizardContext.tsx:132-163 | After saving at "basic_info", moving on and loading back, the step returns and the state is dirty again, because the stored copy was taken before the save. |
| CampaignStore.InitialStateFacts | apps/web/src/app/modules/campaigns/create/stores/campaignStore.ts:78-87 | The store starts with ten credits at step 0, with nothing completed or validated, not generating and not publishing. |
| CampaignStore.CompleteStepEffect | apps/web/src/app/modules/campaigns/create/stores/campaignStore.ts:118-128 | A completed step is added once and only the completed list changes; completing it again changes nothing, and a duplicate-free list stays so. |
| CampaignStore.SetStepValidationEffect | apps/web/src/app/modules/campaigns/create/stores/campaignStore.ts:135-144 | Only the given key is set; the other keys keep their flags and no other key appears. |
| CampaignStore.UseAiCreditsEffect | apps/web/src/app/modules/campaigns/create/stores/campaignStore.ts:150-158 | Credits never go negative: an affordable amount is subtracted, a larger one empties them; two non-negative spends equal one spend of their sum. |
| CampaignStore.ResetCampaignEffect | apps/web/src/app/modules/campaigns/create/stores/campaignStore.ts:182-202 | A reset gives the initial store but keeps the credits and the generating flag; resetting twice is resetting once. |
| CampaignStore.UpdateStepDataEffect | apps/web/src/app/modules/campaigns/create/stores/campaignStore.ts:204-206 | Each present key of the update wins and each absent one keeps its value; an empty update changes nothing, and applying the same update twice is applying it once. |
| CampaignStore.SummaryExactly | apps/web/src/app/modules/campaigns/create/stores/campaignStore.ts:208-221 | Two stores have the same summary exactly when their step data, validation, current step and completed steps agree; spending credits and resetting leave a fresh summary unchanged. |
| CampaignStore.Store.constructor | apps/web/src/app/modules/campaigns/create/stores/campaignStore.ts:78-87 | The store starts in the initial state. |
| CampaignStore.Store.SetTemplate | apps/web/src/app/modules/campaigns/create/stores/campaignStore.ts:89-91 | Sets the template and nothing else. |
| CampaignStore.Store.SetBasicInfo | apps/web/src/app/modules/campaigns/create/stores/campaignStore.ts:93-95 | Sets the basic information and nothing else. |
| CampaignStore.Store.SetCreatives | apps/web/src/app/modules/campaigns/create/stores/campaignStore.ts:97-99 | Sets the creatives and nothing else. |
| CampaignStore.Store.SetAudience | apps/web/src/app/modules/campaigns/create/stores/campaignStore.ts:101-103 | Sets the audience and nothing else. |
| CampaignStore.Store.SetPlanning | apps/web/src/app/modules/campaigns/create/stores/campaignStore.ts:105-107 | Sets the planning and nothing else. |
| CampaignStore.Store.SetTracking | apps/web/src/app/modules/campaigns/create/stores/campaignStore.ts:109-111 | Sets the tracking and nothing else. |
| CampaignStore.Store.SetCurrentStep | apps/web/src/app/modules/campaigns/create/stores/campaignStore.ts:114-132 | Sets the current step and nothing else; it is also `goToStep`. |
| CampaignStore.Store.CompleteStepAction | apps/web/src/app/modules/campaigns/create/stores/campaignStore.ts:118-128 | Applies the completion. |
| CampaignStore.Store.SetStepValidationAction | apps/web/src/app/modules/campaigns/create/stores/campaignStore.ts:135-144 | Applies the validation update. |
| CampaignStore.Store.SetAiCredits | apps/web/src/app/modules/campaigns/create/stores/campaignStore.ts:146-148 | Sets the credits and nothing else. |
| CampaignStore.Store.UseAiCreditsAction | apps/web/src/app/modules/campaigns/create/stores/campaignStore.ts:150-158 | Applies the spend. |
| CampaignStore.Store.SetGenerating | apps/web/src/app/modules/campaigns/create/stores/campaignStore.ts:160-162 | Sets the generating flag and nothing else. |
| CampaignStore.Store.SetGenerationError | apps/web/src/app/modules/campaigns/create/stores/campaignStore.ts:164-166 | Sets the generation error and nothing else. |
| CampaignStore.Store.SetPublishing | apps/web/src/app/modules/campaigns/create/stores/campaignStore.ts:169-171 | Sets the publishing flag and nothing else. |
| CampaignStore.Store.SetPublishingProgress | apps/web/src/app/modules/campaigns/create/stores/campaignStore.ts:173-175 | Sets the publishing progress and nothing else. |
| CampaignStore.Store.SaveProgress | apps/web/src/app/modules/campaigns/create/stores/campaignStore.ts:178-180 | Records the save time and nothing else. |
| CampaignStore.Store.ResetCampaignAction | apps/web/src/app/modules/campaigns/create/stores/campaignStore.ts:182-202 | Applies the reset. |
| CampaignStore.Store.UpdateStepDataAction | apps/web/src/app/modules/campaigns/create/stores/campaignStore.ts:204-206 | Applies the partial update. |
| CampaignStore.Store.GetCampaignSummaryAction | apps/web/src/app/modules/campaigns/create/stores/campaignStore.ts:208-221 | Returns the summary and changes nothing. |
| CampaignStore.ResetScenario | apps/web/src/app/modules/campaigns/create/stores/campaignStore.ts:150-202 | Spending three of ten credits leaves seven, completing a step twice records it once, a reset gives the summary of a fresh store, and overspending empties the credits. |
| CampaignCreatePage.StepIndex | apps/web/src/app/modules/campaigns/create/components/CampaignCreatePage.tsx:32-83 | Every step has a position in the step list, and that position is the only one holding it. |
| CampaignCreatePage.InitialWizardStateFacts | apps/web/src/app/modules/campaigns/create/components/CampaignCreatePage.tsx:134-140 | With a template id the wizard starts at "basic_info", otherwise at "template"; that step is the only visited one, nothing is completed, valid or unsaved. |
| CampaignCreatePage.NavigateToStepEffect | apps/web/src/app/modules/campaigns/create/components/CampaignCreatePage.tsx:193-201 | Navigating sets the current step and adds it to the visited steps once; nothing else changes, and navigating to the same step again changes nothing more. |
| CampaignCreatePage.NextPreviousEffect | apps/web/src/app/modules/campaigns/create/components/CampaignCreatePage.tsx:206-223 | `nextStep` does nothing at the last step and `previousStep` nothing at the first; otherwise each moves exactly one place, and forward then back returns to the same step. |
| CampaignCreatePage.MarkStepCompletedEffect | apps/web/src/app/modules/campaigns/create/components/CampaignCreatePage.tsx:228-235 | A step is added to the completed steps once and nothing else changes; marking it twice is marking it once. |
| CampaignCreatePage.ValidationChangeEffect | apps/web/src/app/modules/campaigns/create/components/CampaignCreatePage.tsx:183-188 | Only the validity flag changes. |
| CampaignCreatePage.RequiredSteps | apps/web/src/app/modules/campaigns/create/components/CampaignCreatePage.tsx:32-83 | The required steps are the five that are not optional: all but "template" and "tracking". |
| CampaignCreatePage.RequiredCount | apps/web/src/app/modules/campaigns/create/components/CampaignCreatePage.tsx:301-303 | The loop counts the completed required steps. |
| CampaignCreatePage.ProgressRange | apps/web/src/app/modules/campaigns/create/components/CampaignCreatePage.tsx:299-306 | The progress lies in [0, 100]: 0 with no required step completed, 100 with all five. |
| CampaignCreatePage.ProgressOnlyRequired | apps/web/src/app/modules/campaigns/create/components/CampaignCreatePage.tsx:299-306 | The progress depends only on which required steps are completed. |
| CampaignCreatePage.ProgressIgnoresOptional | apps/web/src/app/modules/campaigns/create/components/CampaignCreatePage.tsx:299-306 | Completing "template" or "tracking" does not move the progress. |
| CampaignCreatePage.ProgressTimesTwenty | apps/web/src/app/modules/campaigns/create/components/CampaignCreatePage.tsx:299-306 | The progress is twenty times the number of completed required steps. |
| CampaignCreatePage.DisabledRule | apps/web/src/app/modules/campaigns/create/components/CampaignCreatePage.tsx:416-426 | The current step's button is enabled; in a consistent state a button is disabled exactly when its step has not been visited, and navigating to it enables it. |
| CampaignCreatePage.DataChangeEffect | apps/web/src/app/modules/campaigns/create/components/CampaignCreatePage.tsx:153-178 | Without a real change the draft is kept as it was; otherwise the update's keys take their new values and the rest keep theirs; after a change the same update is not a real change. |
| CampaignCreatePage.Page.constructor | apps/web/src/app/modules/campaigns/create/components/CampaignCreatePage.tsx:130-148 | The page starts from the initial wizard state and the given draft, shows the selector only without a template id and without initial data, and is in its first render. |
| CampaignCreatePage.Page.FirstRenderDone | apps/web/src/app/modules/campaigns/create/components/CampaignCreatePage.tsx:309-311 | Ends the first render. |
| CampaignCreatePage.Page.HandleDataChange | apps/web/src/app/modules/campaigns/create/components/CampaignCreatePage.tsx:153-178 | A real change updates the draft and, after the first render, marks the wizard unsaved. |
| CampaignCreatePage.Page.HandleValidationChange | apps/web/src/app/modules/campaigns/create/components/CampaignCreatePage.tsx:183-188 | Applies the validity change. |
| CampaignCreatePage.Page.NavigateToStepAction | apps/web/src/app/modules/campaigns/create/components/CampaignCreatePage.tsx:193-201 | Applies the navigation. |
| CampaignCreatePage.Page.NextStepAction | apps/web/src/app/modules/campaigns/create/components/CampaignCreatePage.tsx:206-212 | Moves to the next step. |
| CampaignCreatePage.Page.PreviousStepAction | apps/web/src/app/modules/campaigns/create/components/CampaignCreatePage.tsx:217-223 | Moves to the previous step. |
| CampaignCreatePage.Page.MarkStepCompletedAction | apps/web/src/app/modules/campaigns/create/components/CampaignCreatePage.tsx:228-235 | Marks the step completed. |
| CampaignCreatePage.Page.HandleTemplateSelect | apps/web/src/app/modules/campaigns/create/components/CampaignCreatePage.tsx:239-254 | The template's fields enter the draft, the selector closes, the wizard moves to "basic_info" and "template" is completed. |
| CampaignCreatePage.Page.HandleSkipTemplate | apps/web/src/app/modules/campaigns/create/components/CampaignCreatePage.tsx:260-263 | The selector closes and the wizard moves to "basic_info". |
| CampaignCreatePage.Page.HandleSaveDraft | apps/web/src/app/modules/campaigns/create/components/CampaignCreatePage.tsx:268-281 | The save clears the unsaved flag and ends with saving off. |
| CampaignCreatePage.TemplateScenario | apps/web/src/app/modules/campaigns/create/components/CampaignCreatePage.tsx:239-254 | Without a template id the page opens on the selector; picking a template after the first render reaches "basic_info" with unsaved changes and 0 % progress. |
| CampaignCreatePage.NavigationScenario | apps/web/src/app/modules/campaigns/create/components/CampaignCreatePage.tsx:206-223 | With a template id the page opens on "basic_info", `previousStep` goes back to "template" and `nextStep` returns; one `nextStep` from "tracking" reaches "review". |
| CreateValidators.BudgetRule | apps/web/src/app/modules/campaigns/create/utils/validators.ts:95-118 | A budget is rejected when it is daily without a daily amount, when its cap is below its amount, or when the amount is below 1; a valid one has all three the right way round. |
| CreateValidators.ScheduleRule | apps/web/src/app/modules/campaigns/create/utils/validators.ts:121-147 | A schedule with an end is rejected unless the end comes strictly after the start; without an end the dates are not compared. |
| CreateValidators.AbTestRule | apps/web/src/app/modules/campaigns/create/utils/validators.ts:166-200 | A valid A/B configuration has two to five variants of 1 % to 100 % each; when enabled they total 100 %, so none takes more than 99 %. |
| CreateValidators.NameRule | apps/web/src/app/modules/campaigns/create/utils/validators.ts:205-209 | A name is non-empty and made of letters, digits, white space, "-" and "_"; accented letters are refused. |
| CreateValidators.ValidateStep | apps/web/src/app/modules/campaigns/create/utils/validators.ts:296-310 | An unknown step gives the error "Étape inconnue", and only an unknown step does. |
| CreateValidators.StepsCoverCampaign | apps/web/src/app/modules/campaigns/create/utils/validators.ts:203-285 | A campaign is valid exactly when each of the six step schemas accepts it and both time stamps are date-times; "template" is not a step. |
| CreateValidators.CampaignLimits | apps/web/src/app/modules/campaigns/create/utils/validators.ts:203-250 | A valid campaign has one to five channels, one to ten creatives, at most ten tags of at most 30 characters, and a name of allowed characters. |
| Utm.SearchParams.constructor | apps/web/src/app/modules/campaigns/create/mock-data.ts:261-265 | The parameter list starts as the given pairs, in order. |
| Utm.SearchParams.Append | apps/web/src/app/modules/campaigns/create/mock-data.ts:267-268 | `append` adds one pair at the end. |
| Utm.GenerateUtmUrl | apps/web/src/app/modules/campaigns/create/mock-data.ts:253-271 | The link is the base URL, "?" and the serialized UTM pairs. |
| Utm.UtmPairsShape | apps/web/src/app/modules/campaigns/create/mock-data.ts:261-268 | The three campaign parameters come first, in order and even when empty; `utm_term` follows exactly when the term is non-empty, then `utm_content` exactly when the content is. |
| Utm.UtmUrlRoundTrip | apps/web/src/app/modules/campaigns/create/mock-data.ts:253-271 | The query part of the link parses back to exactly the UTM pairs. |
| FormUrlencoded.EncodeComponent | apps/web/src/app/modules/campaigns/create/mock-data.ts:261-270 | A name or a value is written in ASCII, without "&" or "=". |
| FormUrlencoded.SerializePair | apps/web/src/app/modules/campaigns/create/mock-data.ts:261-270 | A pair is written as ASCII with an "=" and no "&". |
| FormUrlencoded.SplitSerialized | apps/web/src/app/modules/campaigns/create/mock-data.ts:261-270 | Splitting the query at "&" gives back the serialized pairs one by one. |
| FormUrlencoded.DecodeEncodedComponent | apps/web/src/app/modules/campaigns/create/mock-data.ts:261-270 | Decoding an encoded name or value gives it back. |
| FormUrlencoded.ParseSerialize | apps/web/src/app/modules/campaigns/create/mock-data.ts:261-270 | Parsing a serialized query gives back the same pairs in the same order. |
| FormUrlencoded.SerializeShape | apps/web/src/app/modules/campaigns/create/mock-data.ts:261-270 | The serialization is ASCII, and its only "&" are the separators. |
| Utf8.EncodeChar | shared/src/utils/index.ts:172 | A character takes one to four bytes, one exactly when it is ASCII; the lead byte gives the length and the others are continuation bytes. |
| Utf8.Encode | shared/src/utils/index.ts:172 | A string takes between one and four bytes per character. |
| Utf8.DecodeFirst | shared/src/utils/index.ts:180 | A decoded first character takes the number of bytes its lead byte announces. |
| Utf8.DecodeFirstEncodeChar | shared/src/utils/index.ts:180 | The decoder reads an encoded character back, whatever follows it. |
| Utf8.DecodeEncode | shared/src/utils/index.ts:172-180 | Decoding an encoding gives back the string. |
| Utf8.EncodeDecode | shared/src/utils/index.ts:180 | The decoder accepts only encodings: what it returns encodes back to its input. |
| Utf8.EncodeAscii | shared/src/utils/index.ts:172 | An ASCII string encodes byte for byte. |
| Percent.AsciiRoundTrip | shared/src/utils/index.ts:172-180 | An ASCII byte string survives the trip to a JavaScript string and back. |
| Percent.PercentByteTriplet | shared/src/utils/index.ts:180 | A "%XX" escape reads back as its byte. |
| UriComponent.EncodeUriComponent | shared/src/utils/index.ts:172 | `encodeURIComponent` gives ASCII, made of unreserved characters and "%XX" escapes. |
| UriComponent.ContinuationsOfEscapes | shared/src/utils/index.ts:180 | Escaped continuation bytes are read back. |
| UriComponent.DecodeEncodedChar | shared/src/utils/index.ts:180 | The escapes of one character decode to that character, whatever follows. |
| UriComponent.DecodeEncode | shared/src/utils/index.ts:172-180 | `decodeURIComponent(encodeURIComponent(s))` is `s` for every string. |
| Base64.Btoa | shared/src/utils/index.ts:172 | `btoa` succeeds exactly when every character is at most U+00FF. |
| Base64.SextetsLength | shared/src/utils/index.ts:172 | Whole groups of four characters, then two or three for a last single byte or pair. |
| Base64.BtoaShape | shared/src/utils/index.ts:172 | The output of `btoa` is whole groups of four: alphabet characters followed by at most two "=". |
| Base64.AtobBtoa | shared/src/utils/index.ts:172-180 | `atob(btoa(s))` is `s` for every string of code units up to U+00FF. |
| Base64.AtobAccepts | shared/src/utils/index.ts:180 | `atob` forgives missing padding and white space. |
| Base64.AtobRejects | shared/src/utils/index.ts:180 | `atob` refuses a length of one more than a multiple of four, and a character outside the alphabet. |
| SharedUtils.RemoveSpaces | shared/src/utils/index.ts:19-26 | Removing white space leaves no white space and never lengthens the text. |
| SharedUtils.PhonePatternExamples | shared/src/utils/index.ts:16-20 | Once its spaces are gone, a number is valid exactly when it has the prefix, an operator code of the allowed ranges and seven digits: 32 is a code, 31 is not, and the length is exact. |
| SharedUtils.FirstMatch | shared/src/utils/index.ts:27-31 | The match used for grouping is the leftmost one. |
| SharedUtils.FormatOther | shared/src/utils/index.ts:25-34 | A number starting with neither "+261" nor "0" once its spaces are gone comes back as given, spaces included. |
| SharedUtils.FormatValid | shared/src/utils/index.ts:16-34 | A valid number is written "+261 XX XXX XXXX" or "0XX XX XXX XX", and removing its spaces again gives the cleaned number. |
| SharedUtils.DetectPreferredLanguage | shared/src/utils/index.ts:51-55 | The user's language wins, else French for a browser language starting with "fr", else Malagasy. |
| SharedUtils.Translate | shared/src/utils/index.ts:60-104 | The entry for the language, or the key itself when there is no non-empty entry. |
| SharedUtils.TranslateExamples | shared/src/utils/index.ts:60-104 | "save" in Malagasy is "Mitahiry", "completed" in French is "Terminé", and an unknown key comes back unchanged. |
| SharedUtils.SectorIgnoresCase | shared/src/utils/index.ts:189-202 | A sector and its lower- or upper-case form are judged alike. |
| SharedUtils.SectorExamples | shared/src/utils/index.ts:189-202 | "tourisme" and "Autres" are sectors; "peche" is not. |
| SharedUtils.CalculateContentComplexity | shared/src/utils/index.ts:207-213 | The score lies in [0, 100]. |
| SharedUtils.QuestionRaisesComplexity | shared/src/utils/index.ts:207-213 | Another question mark adds exactly 0.8 before clamping and never lowers the score. |
| SharedUtils.WordsExamples | shared/src/utils/index.ts:209 | Splitting at runs of white space counts the empty pieces at both ends. |
| SharedUtils.RetryWithBackoff | shared/src/utils/index.ts:146-165 | The call returns exactly when one of the first maxRetries + 1 attempts succeeds, and then with the first success; otherwise every attempt was made and the last error is thrown; the i-th wait is baseDelay times 2 to the i. |
| SharedUtils.DefaultsAllFail | shared/src/utils/index.ts:146-165 | With the defaults, an always-failing call is tried four times, waits 1, 2 and 4 seconds, and throws its last error. |
| SharedUtils.SucceedsOnThirdCall | shared/src/utils/index.ts:146-165 | A call that succeeds on its third try returns after two waits. |
| SharedUtils.DecompressCompress | shared/src/utils/index.ts:170-184 | Decompression undoes compression for every string. |
| SharedUtils.CompressedAlphabet | shared/src/utils/index.ts:170-173 | What compression writes is base64: groups of four alphabet characters, with "=" only as padding at the end. |
| SharedUtils.DecompressFailure | shared/src/utils/index.ts:178-184 | Input that does not decode comes back as it was. |
| SharedUtils.DecompressExamples | shared/src/utils/index.ts:178-184 | "Q" is not base64 and comes back unchanged; "QQ" decodes to "A". |
| TextSanitizer.RemoveAngles | apps/web/src/app/modules/campaigns/create/utils/compression.utils.ts:259 | The output holds no "<" or ">" and only characters of the input. |
| TextSanitizer.RemoveJs | apps/web/src/app/modules/campaigns/create/utils/compression.utils.ts:260 | The removal only deletes characters, and changes the text whenever its length changes. |
| TextSanitizer.RemoveHandlers | apps/web/src/app/modules/campaigns/create/utils/compression.utils.ts:261 | The removal only deletes characters. |
| TextSanitizer.SanitizeText | apps/web/src/app/modules/campaigns/create/utils/compression.utils.ts:257-264 | The output has at most 1000 characters. |
| TextSanitizer.SanitizeTextNoAngles | apps/web/src/app/modules/campaigns/create/utils/compression.utils.ts:257-264 | The output has no angle bracket and at most 1000 characters. |
| TextSanitizer.SanitizeTextFixed | apps/web/src/app/modules/campaigns/create/utils/compression.utils.ts:257-264 | The corrected sanitiser also keeps to 1000 characters. |
| TextSanitizer.ScrubIsClean | apps/web/src/app/modules/campaigns/create/utils/compression.utils.ts:259-261 | A fixed point of the three removals has nothing left for any of them. |
| TextSanitizer.SanitizeTextFixedClean | apps/web/src/app/modules/campaigns/create/utils/compression.utils.ts:257-264 | The corrected output has no angle bracket, no "javascript:" in any case and no "on...=" handler. |
| TextSanitizer.SanitizersAgreeOnFixedPoints | apps/web/src/app/modules/campaigns/create/utils/compression.utils.ts:257-264 | On text the three removals leave unchanged, the corrected and the original sanitiser agree. |
| SanitizerFinding.RemoveJsJoins | apps/web/src/app/modules/campaigns/create/utils/compression.utils.ts:260 | Removing a "javascript:" at position 4 joins the four characters before it to the text after it. |
| SanitizerFinding.SanitizeTextKeepsJavascript | apps/web/src/app/modules/campaigns/create/utils/compression.utils.ts:257-264 | On "javajavascript:script:" the output is "javascript:". |
| AudienceMock.Breakdown | apps/web/src/app/modules/campaigns/create/mocks/campaign-create.mock.ts:386-409 | Each breakdown count is the size before the minimum, times its share, rounded down. |
| AudienceMock.EstimateAudience | apps/web/src/app/modules/campaigns/create/mocks/campaign-create.mock.ts:367-411 | The reported size is never below 100: the raw size when it is larger, else 100; only the number of filters matters. |
| AudienceMock.BaseSizeSameIds | apps/web/src/app/modules/campaigns/create/mocks/campaign-create.mock.ts:374-379 | The base depends only on which ids are selected: repeating or reordering them changes nothing. |
| AudienceMock.UnknownSegmentsGiveZero | apps/web/src/app/modules/campaigns/create/mocks/campaign-create.mock.ts:374-379 | Selected ids that are all unknown give a base of 0, not the default 15000. |
| AudienceMock.BaseSizeBounds | apps/web/src/app/modules/campaigns/create/mocks/campaign-create.mock.ts:374-379 | The base lies between 0 and the size of all five segments together. |
| AudienceMock.BaseSizeExamples | apps/web/src/app/modules/campaigns/create/mocks/campaign-create.mock.ts:374-379 | No segment gives 15000; a repeated and an unknown id count once and not at all; two segments add up. |
| AudienceMock.RawSizeByFilters | apps/web/src/app/modules/campaigns/create/mocks/campaign-create.mock.ts:381-382 | No filter keeps the base; one keeps three tenths of it; from two on, a positive base turns negative, so the reported size is the minimum. |
| AudienceMock.NegativeBreakdowns | apps/web/src/app/modules/campaigns/create/mocks/campaign-create.mock.ts:382-409 | With two filters or more and a positive base, every breakdown count is negative, because the breakdowns use the size before the minimum is applied. |
| AudienceMock.BreakdownsSplitSize | apps/web/src/app/modules/campaigns/create/mocks/campaign-create.mock.ts:386-409 | Each breakdown of a non-negative size adds up to at most the size and loses less than one unit per part to rounding down. |
| AudienceEstimator.FilterFactor | apps/web/src/app/modules/campaigns/create/components/wizard/StepAudience/AudienceEstimator.tsx:54-59 | The filters keep between 20 % and all of the reach: 10 % less per filter, at most 80 % less. |
| AudienceEstimator.ComputeEstimatedReach | apps/web/src/app/modules/campaigns/create/components/wizard/StepAudience/AudienceEstimator.tsx:41-67 | The loop and the later steps compute the reach the specification function gives. |
| AudienceEstimator.ReachWithinBase | apps/web/src/app/modules/campaigns/create/components/wizard/StepAudience/AudienceEstimator.tsx:41-67 | Without a CSV file the reach lies between 0 and the summed segment reach, and equals it for one segment without filters. |
| AudienceEstimator.CsvWins | apps/web/src/app/modules/campaigns/create/components/wizard/StepAudience/AudienceEstimator.tsx:44-47 | With a CSV file the reach is its number of valid rows, whatever the segments and filters. |
| AudienceEstimator.FilterCutCapped | apps/web/src/app/modules/campaigns/create/components/wizard/StepAudience/AudienceEstimator.tsx:57-58 | Past eight filters, more filters cut no further. |
| AudienceEstimator.ReachExamples | apps/web/src/app/modules/campaigns/create/components/wizard/StepAudience/AudienceEstimator.tsx:24-67 | One segment gives its reach; two segments with two filters give 17680; an unknown segment gives 0. |
| AudienceEstimator.GetReachQuality | apps/web/src/app/modules/campaigns/create/components/wizard/StepAudience/AudienceEstimator.tsx:74-79 | Each label is chosen exactly on its interval: below 1000, up to 10000, up to 50000, and above. |
| AudienceEstimator.QualityMonotone | apps/web/src/app/modules/campaigns/create/components/wizard/StepAudience/AudienceEstimator.tsx:74-79 | A larger reach never gets a narrower label. |
| AudienceEstimator.ColorFollowsQuality | apps/web/src/app/modules/campaigns/create/components/wizard/StepAudience/AudienceEstimator.tsx:74-79 | Two reaches get the same colour exactly when they get the same label; orange is below 1000 and purple from 50000. |
| StepPlanning.DurationCoversInterval | apps/web/src/app/modules/campaigns/create/components/wizard/StepPlanning.tsx:160-167 | The duration is the least whole number of days covering the interval, whichever way round the dates are, and 0 exactly when they are equal. |
| StepPlanning.DurationExamples | apps/web/src/app/modules/campaigns/create/components/wizard/StepPlanning.tsx:160-167 | One day gives 1, one day and a millisecond gives 2, a missing date gives 0. |
| StepPlanning.GetTotalBudget | apps/web/src/app/modules/campaigns/create/components/wizard/StepPlanning.tsx:169-174 | A daily budget is multiplied by the duration when there is one; otherwise the budget is returned as it is. |
| StepPlanning.Cpm | apps/web/src/app/modules/campaigns/create/components/wizard/StepPlanning.tsx:429 | The cost per thousand is the budget per person times 1000 when budget and reach are positive, else 0. |
| StepPlanning.DailyReach | apps/web/src/app/modules/campaigns/create/components/wizard/StepPlanning.tsx:430-434 | The daily reach is the reach per day rounded to the nearest whole number, or the whole reach for a duration of 0. |
| StepPlanning.DailyReachAtMostReach | apps/web/src/app/modules/campaigns/create/components/wizard/StepPlanning.tsx:430-434 | A non-negative reach spread over at least one day gives no more per day than in total. |
| StepPlanning.Recommendations | apps/web/src/app/modules/campaigns/create/components/wizard/StepPlanning.tsx:481-483 | Each recommendation is listed exactly when its condition holds, and at most two are listed at once. |
| StepPlanning.CurrencySymbolDefault | apps/web/src/app/modules/campaigns/create/components/wizard/StepPlanning.tsx:415-426 | Dollars show "$", ariary "Ar", and every other currency the euro sign. |
| StepPlanning.CalculateMetricsTexts | apps/web/src/app/modules/campaigns/create/components/wizard/StepPlanning.tsx:428-441 | The cost per thousand is written with two decimals and the frequency with one, neither negative; without a duration the frequency is "1.0" and the daily reach the whole reach; the card is drawn exactly for a positive duration and a non-zero budget, and then shows 1.2 times the duration. |
| CompressionUtils.CalculateDimensions | apps/web/src/app/modules/campaigns/create/utils/compression.utils.ts:132-155 | The step-by-step assignments give the rounded fitted size. |
| CompressionUtils.WidthStepRatio | apps/web/src/app/modules/campaigns/create/utils/compression.utils.ts:138-148 | After the width step the size still has the original ratio. |
| CompressionUtils.FittedWithinBounds | apps/web/src/app/modules/campaigns/create/utils/compression.utils.ts:132-155 | The fitted size keeps the original ratio and stays within both bounds. |
| CompressionUtils.FittedKeepsRatio | apps/web/src/app/modules/campaigns/create/utils/compression.utils.ts:132-155 | The fitted size has the original width-to-height ratio. |
| CompressionUtils.RoundedWithinBounds | apps/web/src/app/modules/campaigns/create/utils/compression.utils.ts:132-155 | Rounding the fitted size keeps it within both bounds. |
| CompressionUtils.FittedInBounds | apps/web/src/app/modules/campaigns/create/utils/compression.utils.ts:132-155 | A size already within both bounds comes back unchanged. |
| CompressionUtils.ValidateImageFile | apps/web/src/app/modules/campaigns/create/utils/compression.utils.ts:209-228 | An image is accepted exactly when its type is supported and it is at most 10 MiB; otherwise the error names the failed check, the type first. |
| CompressionUtils.ValidateVideoFile | apps/web/src/app/modules/campaigns/create/utils/compression.utils.ts:233-252 | A video is accepted exactly when its type is supported and it is at most 100 MiB; otherwise the error names the failed check, the type first. |
| CompressionUtils.TypeCheckedFirst | apps/web/src/app/modules/campaigns/create/utils/compression.utils.ts:213-249 | A file of the wrong kind is reported for its type, whatever its size. |
| CompressionUtils.ReplaceSpecial | apps/web/src/app/modules/campaigns/create/utils/compression.utils.ts:289 | Each character outside letters, digits, "." and "-" becomes "_", in place. |
| CompressionUtils.CollapseUnderscores | apps/web/src/app/modules/campaigns/create/utils/compression.utils.ts:290 | Every run of underscores becomes one; the first character stays an underscore exactly when it was one. |
| CompressionUtils.StripEdgesSafe | apps/web/src/app/modules/campaigns/create/utils/compression.utils.ts:291 | After the edges are stripped, the name neither starts nor ends with an underscore and still has no double underscore. |
| CompressionUtils.SanitizeFileNameSafe | apps/web/src/app/modules/campaigns/create/utils/compression.utils.ts:287-293 | The output uses only lower-case letters, digits, ".", "_" and "-", never two underscores in a row, and neither starts nor ends with an underscore. |
| CompressionUtils.SafeFileNameUnchanged | apps/web/src/app/modules/campaigns/create/utils/compression.utils.ts:287-293 | A name that is already safe comes back as it was. |
| CompressionUtils.SanitizeFileNameIdempotent | apps/web/src/app/modules/campaigns/create/utils/compression.utils.ts:287-293 | Sanitizing a sanitized name changes nothing. |
| CompressionUtils.FormatEmptyFileSize | apps/web/src/app/modules/campaigns/create/utils/compression.utils.ts:299 | An empty file is written "0 B". |
| FileUpload.ValidateFile | apps/web/src/app/modules/campaigns/templates/hooks/useFileUpload.ts:17-35 | A file is refused as too large exactly when it exceeds the limit, as unsupported exactly when it fits but its type is not accepted, and accepted otherwise. |
| FileUpload.ErrorMessageExamples | apps/web/src/app/modules/campaigns/templates/hooks/useFileUpload.ts:28-42 | Too many files reads "Nombre maximum de fichiers dépassé (max: 5)" with its limit, and an unsupported type "Type de fichier non supporté: " followed by the type. |
| FileUpload.ErrorMessageTooLarge | apps/web/src/app/modules/campaigns/templates/hooks/useFileUpload.ts:18-24 | A file over a 1 MiB limit reads "Le fichier a.png est trop volumineux (max: 1MB)". |
| FileUpload.FirstInvalidMeaning | apps/web/src/app/modules/campaigns/templates/hooks/useFileUpload.ts:47-53 | The batch check finds no error exactly when every file passes, and otherwise reports the first failing file. |
| FileUpload.UploadedBatch | apps/web/src/app/modules/campaigns/templates/hooks/useFileUpload.ts:59-91 | The batch holds one record per file, in order. |
| FileUpload.UploadRules | apps/web/src/app/modules/campaigns/templates/hooks/useFileUpload.ts:37-104 | The file limit is checked first, then every file, and a refused batch adds nothing; an accepted one adds one record per file, in order, with its name, size, type and time. |
| FileUpload.SizeCheckedFirst | apps/web/src/app/modules/campaigns/templates/hooks/useFileUpload.ts:17-32 | A file over the size limit is reported as too large even when its type is not accepted. |
| FileUpload.Uploader.constructor | apps/web/src/app/modules/campaigns/templates/hooks/useFileUpload.ts:13-15 | The hook starts with no upload in progress, progress 0 and no file. |
| FileUpload.Uploader.SimulateTransfer | apps/web/src/app/modules/campaigns/templates/hooks/useFileUpload.ts:66-78 | The simulated transfer ends at progress 100. |
| FileUpload.Uploader.UploadFiles | apps/web/src/app/modules/campaigns/templates/hooks/useFileUpload.ts:37-104 | A refused batch changes nothing; an accepted one is appended to the uploaded files, and the upload ends with progress 0. |
| FileUpload.Uploader.RemoveFile | apps/web/src/app/modules/campaigns/templates/hooks/useFileUpload.ts:106-108 | Exactly the files with the given id are removed. |
| FileUpload.Uploader.ClearFiles | apps/web/src/app/modules/campaigns/templates/hooks/useFileUpload.ts:110-112 | No file is left. |
| FileUpload.UploadScenario | apps/web/src/app/modules/campaigns/templates/hooks/useFileUpload.ts:37-104 | Two accepted images are uploaded in order, and a third batch that would pass the limit of two is refused without touching them. |
| DataTable.SortedData | apps/web/src/app/modules/ui/data-table.tsx:72-87 | The view has exactly one entry per row. |
| DataTable.SortedDataKeepsOrder | apps/web/src/app/modules/ui/data-table.tsx:72-87 | Without a sort state, or with one naming an unknown column, the rows keep their order. |
| DataTable.SortedDataOrdered | apps/web/src/app/modules/ui/data-table.tsx:72-87 | With a sort on a known column the view is a permutation of the rows, ordered by that column in the chosen direction, with equal cells in their original order. |
| DataTable.NextSort | apps/web/src/app/modules/ui/data-table.tsx:89-99 | A click asks for the clicked column, descending exactly when that column is the one currently sorted ascending. |
| DataTable.NextSortAlternates | apps/web/src/app/modules/ui/data-table.tsx:89-99 | Clicks on one column alternate ascending and descending; a click on another column starts ascending. |
| DataTable.Table.constructor | apps/web/src/app/modules/ui/data-table.tsx:67-70 | The table starts without local sort state. |
| DataTable.Table.HandleSort | apps/web/src/app/modules/ui/data-table.tsx:89-99 | A controlled table hands the new state to `onSort` and keeps its local state; an uncontrolled one stores it. |
| DataTable.SortScenario | apps/web/src/app/modules/ui/data-table.tsx:67-99 | On an uncontrolled table two clicks on a header sort by it ascending, then descending. |
| DataTable.SelectAll | apps/web/src/app/modules/ui/data-table.tsx:107-115 | Without a selection there is no call; otherwise select-all is called. |
| DataTable.SelectRow | apps/web/src/app/modules/ui/data-table.tsx:117-125 | Without a selection there is no call; otherwise the clicked id is toggled and every other id keeps its state. |
| DataTable.SelectAllToggles | apps/web/src/app/modules/ui/data-table.tsx:101-115 | From a state that is not all-selected, select-all selects every row, and from the all-selected state it clears the selection. |
| DataTable.SelectRowTwice | apps/web/src/app/modules/ui/data-table.tsx:117-125 | Toggling a row twice gives back the same selected ids. |
| DataTable.SelectedRowsProperties | apps/web/src/app/modules/ui/data-table.tsx:127-129 | The selected rows are the rows whose id is selected, in table order; when all are selected they are the whole table. |
| DataTable.IndeterminateMeaning | apps/web/src/app/modules/ui/data-table.tsx:101-105 | When every selected id is a row of the table, the checkbox is indeterminate exactly when some but not all rows are selected. |
| DataTable.IndeterminateWithoutSelectedRow | apps/web/src/app/modules/ui/data-table.tsx:105 | An id with no row is enough to show an empty table's checkbox as indeterminate. |
| DataTable.TotalPagesIsLeast | apps/web/src/app/modules/ui/data-table.tsx:323-325 | The page count is the least number of pages holding every item, and 0 for no items. |
| DataTable.PageRange | apps/web/src/app/modules/ui/data-table.tsx:323-325 | On every page the range shown lies within the items and holds at most one page of them; it is full on every page but the last, which ends at the total. |
| DataTable.PagesTile | apps/web/src/app/modules/ui/data-table.tsx:323-325 | Each page starts right after the previous one ends. |
| Navigation.FilterByPermissionsIsMapFilter | apps/web/src/config/navigation.ts:353-376 | The filter keeps the passing items, in order, each with its children pruned. |
| Navigation.FilterByPermissionsMembers | apps/web/src/config/navigation.ts:353-376 | An item is in the result, pruned, exactly when it is in the input and passes. |
| Navigation.PrunedShape | apps/web/src/config/navigation.ts:355-363 | Pruning changes only the children: a child stays exactly when it passes, the kept children keep their order, and an item without children stays without. |
| Navigation.AllowedMonotone | apps/web/src/config/navigation.ts:349-369 | Holding more permissions never hides an item or a child. |
| Navigation.PrunedMonotone | apps/web/src/config/navigation.ts:355-363 | With more permissions an item keeps at least the same children, in the same order. |
| Navigation.FilterKeepsAllowed | apps/web/src/config/navigation.ts:353-376 | When every item and every child passes, the navigation comes back unchanged. |
| Navigation.RolesNested | apps/web/src/config/navigation.ts:295-351 | A higher role holds every permission of a lower one. |
| Navigation.FilterMonotoneInRole | apps/web/src/config/navigation.ts:295-376 | A higher role sees every item and child a lower role sees, in the same order. |
| Navigation.AdminSeesEverything | apps/web/src/config/navigation.ts:41-376 | An admin sees the whole navigation. |
| Navigation.FilterAllAllowed | apps/web/src/config/navigation.ts:353-376 | When every item passes, each is kept, pruned. |
| Navigation.FilterDropsOnly | apps/web/src/config/navigation.ts:353-376 | When only one item fails, the result is every other item, pruned, in order. |
| Navigation.SectionGuards | apps/web/src/config/navigation.ts:41-293 | The nine sections in order; only "billing" is guarded, by "billing.read". |
| Navigation.SeventhDropped | apps/web/src/config/navigation.ts:353-376 | When only the seventh section is guarded and its permission is not held, the other eight are kept in order. |
| Navigation.ViewerSections | apps/web/src/config/navigation.ts:41-376 | A viewer loses the billing section and keeps the other eight, in order. |
| Navigation.ViewerSettings | apps/web/src/config/navigation.ts:234-267 | Under the settings a viewer keeps only the integrations page. |
| Navigation.ViewerLacks | apps/web/src/config/navigation.ts:295-347 | A viewer holds none of "billing.read", "users.read", "permissions.manage" and "api.manage". |
| DashboardNavigation.TablesAgree | apps/web/src/config/dashboard-navigation.ts:257-313 | The dashboard's permission table grants each role the same permissions as the main one, so its roles are nested in the same way. |
| DashboardNavigation.SectionGuards | apps/web/src/config/dashboard-navigation.ts:3-255 | The nine sections in order; only "billing" is guarded, by "billing.read". |
| DashboardNavigation.ViewerSections | apps/web/src/config/dashboard-navigation.ts:3-338 | A viewer loses the billing section and keeps the other eight, in order. |
| DashboardNavigation.EditorSettings | apps/web/src/config/dashboard-navigation.ts:196-229 | Under the settings an editor keeps only the integrations page. |
| DashboardNavigation.ManagerSettings | apps/web/src/config/dashboard-navigation.ts:196-229 | A manager, holding "users.read", also keeps the team page. |
| DashboardNavigation.AdminSeesEverything | apps/web/src/config/dashboard-navigation.ts:3-338 | An admin sees the whole dashboard navigation. |
| RealtimeFeed.MockEvent | apps/web/src/app/modules/dashboard/realtime/hooks/useRealtime.ts:33-45 | A generated event has one of the four types and statuses, is unread and carries the current time. |
| RealtimeFeed.Pushed | apps/web/src/app/modules/dashboard/realtime/hooks/useRealtime.ts:92-121 | The buffer never holds more than 100 events. |
| RealtimeFeed.PushedShape | apps/web/src/app/modules/dashboard/realtime/hooks/useRealtime.ts:92-121 | The new event comes first, followed by the newest events already there; only those beyond 100 are dropped. |
| RealtimeFeed.PushedNewestFirst | apps/web/src/app/modules/dashboard/realtime/hooks/useRealtime.ts:92-121 | Events arriving in time order stay ordered newest first. |
| RealtimeFeed.PushAllKeepsNewest | apps/web/src/app/modules/dashboard/realtime/hooks/useRealtime.ts:85-124 | Whatever arrives, the buffer holds the 100 most recent events, newest first. |
| RealtimeFeed.MarkRead | apps/web/src/app/modules/dashboard/realtime/hooks/useRealtime.ts:126-130 | Each event with the id is marked read and every other event is kept. |
| RealtimeFeed.MarkReadEffect | apps/web/src/app/modules/dashboard/realtime/hooks/useRealtime.ts:126-130 | Only the matching events change, and only their read flag; marking twice is marking once. |
| RealtimeFeed.Feed.constructor | apps/web/src/app/modules/dashboard/realtime/hooks/useRealtime.ts:12-28 | The feed starts live at normal speed with no event, over the last day. |
| RealtimeFeed.Feed.ToggleLive | apps/web/src/app/modules/dashboard/realtime/hooks/useRealtime.ts:76-78 | Flips the live flag. |
| RealtimeFeed.Feed.SetPlaybackSpeed | apps/web/src/app/modules/dashboard/realtime/hooks/useRealtime.ts:80-82 | Sets the speed. |
| RealtimeFeed.Feed.TickPeriod | apps/web/src/app/modules/dashboard/realtime/hooks/useRealtime.ts:85-97 | An interval runs exactly when the feed is live in mock mode, every interval divided by the speed. |
| RealtimeFeed.Feed.Tick | apps/web/src/app/modules/dashboard/realtime/hooks/useRealtime.ts:88-95 | A tick puts the event in front of the buffer, records the time and hands the event on. |
| RealtimeFeed.Feed.RefreshNow | apps/web/src/app/modules/dashboard/realtime/hooks/useRealtime.ts:119-124 | A refresh puts the event in front of the buffer and records the time. |
| RealtimeFeed.Feed.MarkAsRead | apps/web/src/app/modules/dashboard/realtime/hooks/useRealtime.ts:126-130 | Marks the events with the id as read. |
| RealtimeFeed.FeedScenario | apps/web/src/app/modules/dashboard/realtime/hooks/useRealtime.ts:76-130 | A paused feed runs no interval; after two refreshes the later event is first, and marking it read leaves the other alone. |
| RealtimeCharts.NewDataPoint | apps/web/src/app/modules/dashboard/realtime/hooks/useRealtimeCharts.ts:45-65 | A new point has the given time and non-negative counts. |
| RealtimeCharts.NewDataPointNearLast | apps/web/src/app/modules/dashboard/realtime/hooks/useRealtimeCharts.ts:45-65 | A new point is at most 10 visitors and 5 engagements away from the last one, and never below 0. |
| RealtimeCharts.Windowed | apps/web/src/app/modules/dashboard/realtime/hooks/useRealtimeCharts.ts:77-83 | The window is never empty and ends with the new point. |
| RealtimeCharts.WindowedShape | apps/web/src/app/modules/dashboard/realtime/hooks/useRealtimeCharts.ts:77-83 | The window is the newest entries of the data followed by the new point, at most the window size of them. |
| RealtimeCharts.WindowedBounded | apps/web/src/app/modules/dashboard/realtime/hooks/useRealtimeCharts.ts:77-83 | A window within its size stays within it; a full one drops exactly its oldest point. |
| RealtimeCharts.UpdatedBars | apps/web/src/app/modules/dashboard/realtime/hooks/useRealtimeCharts.ts:67-75 | Each channel's conversions move by a rounded random step, never below 0, and take the new trend. |
| RealtimeCharts.UpdatedBarsKeepsChannels | apps/web/src/app/modules/dashboard/realtime/hooks/useRealtimeCharts.ts:67-75 | A bar update keeps the channels in order with their names and colours; conversions stay non-negative and move by at most 5. |
| RealtimeCharts.Charts.constructor | apps/web/src/app/modules/dashboard/realtime/hooks/useRealtimeCharts.ts:26-43 | The charts start with eight points and five channels. |
| RealtimeCharts.Charts.UpdateLineChartData | apps/web/src/app/modules/dashboard/realtime/hooks/useRealtimeCharts.ts:77-83 | Appends a new point and keeps the window. |
| RealtimeCharts.Charts.UpdateBarChartData | apps/web/src/app/modules/dashboard/realtime/hooks/useRealtimeCharts.ts:67-75 | The new bars are exactly `updateBarChartData` applied to the old ones. The running page never makes this call; see "## Findings". |
| RealtimeCharts.Charts.ResetData | apps/web/src/app/modules/dashboard/realtime/hooks/useRealtimeCharts.ts:95-110 | Brings back four points and the five initial channels. |
| RealtimeCharts.ChartsScenario | apps/web/src/app/modules/dashboard/realtime/hooks/useRealtimeCharts.ts:26-110 | With the default window of ten, the third update drops the oldest point; a bar update, a call the running page never makes, keeps the five channel names; a reset gives four points. |
| RealtimeChartTimers.BarNeverFiresAsWritten | apps/web/src/app/modules/dashboard/realtime/hooks/useRealtimeCharts.ts:45-93 | As written, every callback the intervals run is a line update: each one changes `lineChartData`, the effect starts both intervals again, and the bar interval is never reached. |
| RealtimeChartTimers.BarEveryThreeTicksIntended | apps/web/src/app/modules/dashboard/realtime/hooks/useRealtimeCharts.ts:85-93 | With intervals that keep their own periods, the third callback after mount is a bar update and any three callbacks in a row include one. |

## Left out

- The ML service's HTTP layer is left out because it is framework plumbing. This covers FastAPI
  routing, CORS, uvicorn start-up, `.env` loading and logging, and the mapping of exceptions to a
  500 response. Python floats are modelled as reals.
- `processing_time` is wall-clock time, so it is a parameter.
- The Rust content service is a wrapper around a service whose code is not shown, so it is not
  part of this model.
- Timers and asynchrony are left out; every action is one synchronous state change. This covers:
  - `setTimeout` and `setInterval` delays and simulated API latency;
  - the wizard's 30-second autosave timer;
  - the line-chart and bar-chart intervals, apart from the schedule that RealtimeChartTimers
    models for "## Findings";
  - the 100 ms steps of the upload progress.
- Persistence is left out: Zustand `persist` and `devtools`, and `localStorage`. The wizard's
  stored draft is a field of the provider.
- The random parts of generated values are parameters. The key performance figures that
  `useRealtime` generates at random are left out.
- Browser APIs are left out because they cannot be modelled here: canvas, `Image`, `FileReader`,
  `Blob`, the clipboard, and CSV and JSON export. The same goes for `compressImage`,
  `generateImagePreview`, `supportsWebP` and `cleanupObjectUrls`.
- `URL.createObjectURL` and `Date.now()` in the upload hook are parameters.
- `sanitizeUrl` depends on the URL parser, so it is left out.
- The square roots are parameters, because the model has no real square root. They are the
  z-score of `calculateSignificance` and `calculateRequiredSampleSize`.
- `toLocaleString` and `Intl` formatting are left out.
- ToFixed (Strings) rounds the exact real, where JavaScript rounds the binary double. So
  `(1.005).toFixed(2)` is "1.00" in JavaScript and "1.01" here. It also never writes exponent
  notation, which JavaScript uses from 1e21 on.
- Round2 (UseCampaigns) also rounds the exact real, as ToFixed does, so a mean that is not exact
  as a double can round the other way.
- `formatFileSize` is modelled only for an empty file; other sizes go through `Math.log`.
- `bytesToMB` is left out for the same reason.
- A bar update's new trend values are parameters, because the source rounds a random draw to one
  decimal with `toFixed`.
- JavaScript strings are UTF-16, and Dafny strings are sequences of Unicode scalar values. So:
  - a length here counts characters, where JavaScript counts code units, and the two differ above
    U+FFFF;
  - a lone surrogate cannot be written, so `encodeURIComponent` never throws here.
- Case folding and string order are simplified. `toLowerCase` and `toUpperCase` map ASCII letters
  only, and `localeCompare` is code-point order.
- JSX rendering, routing, toasts and dialogs are left out. `handleCancel`'s confirmation and its
  navigation are the `CampaignCreatePage.LeavesOnCancel` predicate; it has no contract of its own.
- `isValidEmail`, `isStrongPassword`, `formatMGA`, `generateId`, `isOnline` and `delay` of the
  shared helpers are left out. They are regular expressions, I/O or clock reads outside the
  modelled logic.
- filter.types.ts and file-upload.types.ts are not part of this model. Their records are rebuilt
  from how the code uses them, and the template filter store's default filters and default
  sorting are constructor parameters.
- Zod's own recognisers are parameters: URLs, UUIDs, date-times, and `new Date(...)` parsing.
- The CSV import's `File` instance, preview rows and column mapping are only type-checked by the
  schema, so their record leaves them out.
- FormUrlencoded.Parse rejects malformed UTF-8, where the URL Standard substitutes U+FFFD. The
  round trip over serialized text is unaffected.
- FileUpload.ValidateFile writes the size limit in its message as whole MiB, where JavaScript
  prints the exact quotient, which can be fractional.
- ErrorMessage (FileUpload) is where that whole-MiB text is built, so a 1.5 MiB limit reads "1MB"
  here and "1.5MB" in the source.
- RealtimeFeed.ActivityEvent makes `read` a plain boolean, so an absence of `read` is `false`.
- DataTable.SortedData does not model these two cases:
  - undefined cells, and cells of different kinds in one column, where the comparator compares
    mixed values;
  - a page size of 0.
  Each cell is a single comparable key.
- CompressionUtils.CalculateDimensions requires a positive original width and height. A zero or
  `NaN` size from a broken image is left out.
- TextSanitizer.RemoveHandlers reads `\w` as ASCII letters, digits and `_`, as JavaScript does
  without the `u` flag.
- Utm.GenerateUtmUrl keeps the UTM pairs and the serialization as separate facts. No lemma about
  a concrete link is proved.
- DataChangeEffect (CampaignCreatePage) compares JSON values, where `hasRealChanges` compares
  their `JSON.stringify` texts. A JSON object here is a map, so two differences are lost:
  - an update that only reorders an object's keys is a real change in the source, because the
    text changes, but not here;
  - a key whose value is `undefined` is dropped by `JSON.stringify`, and the model cannot hold one.
- DiffDrafts (DraftHelpers) compares field values, where `diffDrafts` compares their
  `JSON.stringify` texts. A media item that differs only in key order is a difference in the
  source but not here. A key whose value is `undefined` cannot be held.
- ApplyPatch (NotificationData) takes an update whose absent fields are `None`. An update such as
  `{ read: undefined }` overwrites the field with `undefined` in the source; it cannot be held here.
- UpdateBarChartData (RealtimeCharts.Charts) and the bar step of ChartsScenario model a call that
  the running page never makes; see "## Findings".
- HandleDataChange (CampaignCreatePage.Page) inherits that gap: it sets the unsaved flag exactly
  when DataChangeEffect's values differ, so a reorder-only update does not set it here.
- UpdateFilters (UseCampaigns.CampaignsHook) takes a patch whose absent fields are `None`. A key
  present in the source's patch with the value `undefined` overwrites the filter with `undefined`;
  the patch here cannot hold that value.
- ValidateStep (CreateValidators) answers UnknownStep for every name outside the six steps. The
  source looks the name up in a plain object, so an inherited name such as "toString" finds a
  function and `safeParse` throws a TypeError; that throw is not modelled.
- ReachOf (AudienceEstimator) gives 0 for an unknown segment. In the source an inherited name such
  as "constructor" finds a function in `SEGMENT_REACH`, and `reach +=` then turns the reach into a
  string; that is not modelled.
- Stats (DraftsStore) takes "the last seven days" as `now - WeekMs`, seven times 24 hours.
  The source steps the local date back by 7 with `setDate`, which is one hour more or less across a
  daylight-saving change.
- TrackingSumRule (WizardValidators) adds the percentages as reals. The source adds doubles, so
  [0.1, 64.1, 35.8] totals 100 here and 99.99999999999999 in the source, which rejects it.
- AbTestRule (CreateValidators) adds the traffic percentages as reals. The source adds doubles, so
  [1.1, 64.1, 34.8] totals 100 here but is rejected in the source.
- EqualSplitTotals100 (TrafficSplitter) proves the exact total of 100 over reals. In doubles
  100 / n summed n times gives 100.00000000000001 for n = 6, 7 and 9.
- EqualSharesTotal100 (AbTestEditor) has the same gap: for 6, 7 or 9 variants the double shares
  total 100.00000000000001.
- RebalancedKeepsTotal (TrafficSplitter) keeps the total exactly over reals. In doubles
  [33.3, 33.3, 33.4] with variant 0 moved to 50 totals 99.99999999999999.
- Breakdown (AudienceMock) multiplies shares of the size as reals before rounding down. In doubles
  the shares of "segment-2" give 16022 and 32045, one less than the 16023 and 32046 here.
- UpdateStepData (CampaignStore) takes an update whose absent keys are `None`. The source spreads
  `{ ...data, ...stepData }`, so a key present with the value `undefined` overwrites the old value;
  that value cannot be held here. A `null` value is held, as `Some(None)`.
- Merge (WizardContext) has the same gap for `{ ...state.data, ...action.stepData }`: a key present
  with the value `undefined` cannot be held, while `null` is `Some(None)`.

## Findings

| source | as written | input that shows it | evidently intended | confidence | as-written member | corrected member |
|---|---|---|---|---|---|---|
| apps/web/src/app/modules/campaigns/create/utils/compression.utils.ts:257-264 | `sanitizeText` runs each removal once, so deleting one `javascript:` can join the text around it into a new one | `"javajavascript:script:"` gives `"javascript:"` | no `javascript:` in any case, no angle bracket and no `on...=` handler left in the output, proved as TextSanitizer.SanitizeTextFixedClean | not executed | SanitizerFinding.SanitizeTextKeepsJavascript | TextSanitizer.SanitizeTextFixed |
| apps/web/src/app/modules/dashboard/realtime/hooks/useRealtimeCharts.ts:65-93 | every line update changes `lineChartData`, which re-creates `generateNewDataPoint` and `updateLineChartData` and so re-runs the effect; its clean-up clears both intervals, and the bar interval, due at twice the line interval, is always cleared before it fires | any `updateInterval`, from mount on: the bars never change | a bar update every `2 * updateInterval`, proved as RealtimeChartTimers.BarEveryThreeTicksIntended | not executed | RealtimeChartTimers.BarNeverFiresAsWritten | RealtimeChartTimers.StepIntended |
