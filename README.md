# Filtering engine of the Python Discord bot, in Dafny

This project models the core of the bot's filtering system and proves properties of the model.

- **Filter lists** hold filters. Each list type (deny or allow) has its own list of filters and its own default settings.
- **Settings** are named entries, and each entry is one of two kinds:
  - *Validation* entries decide whether a filter applies to an event: `enabled`, `filter_dm`, `bypass_roles` and `channel_scope`.
  - *Action* entries say what to do once a filter is triggered: `delete_messages`, `mentions` and `infraction_and_notification`.
- **Triggering.** A filter triggers when its own validation overrides beat the list's defaults. This is the set logic of `filter_list_result`.
- **Combining actions.** The action entries of triggered filters combine with `|`:
  - `delete_messages` is a boolean or;
  - `mentions` takes the union of mention sets;
  - `infraction_and_notification` keeps the more severe infraction, with a separate superstar part, and merges its messages as bullet points.
- **The filtering cog** loads the lists from raw database records. Lists subscribe to the message events, and `on_message` collects the filters that every subscribed list triggers. The event enum is taken with the two members its declarations intend (see Findings).
- **Extension discovery.** The model also covers `unqualify`, `ignore_module` and the selection rule of `walk_extensions`.

How the source's forms map onto Dafny:
- Values that are built once and then only read are datatypes: settings, entries and filters.
- Objects the source updates in place are classes: `FilterContext`, `FilterList`, the cog `Filtering`, and the set of setting names already warned about.
- Loops in the source are methods with loops, proved against pure specification functions.
- Discord calls (DMs, deletions, command invocations) are returned as a sequence of `Effect` values instead of being performed.

Modules, one per source file:
- `Wrappers`, `Values` and `Text` are support modules. `Values` holds the JSON-like raw value of a setting and the Python exceptions a load can raise.
- `FilterContexts` models `_filter_context.py`.
- `EnabledSetting`, `FilterDmSetting`, `BypassRolesSetting`, `ChannelScopeSetting`, `DeleteMessagesSetting`, `PingSetting` and `InfractionAndNotificationSetting` model the seven files in `_settings_types`.
- `SettingsEntries` is the registry of entry types by name.
- `SettingsCollection` models `_settings.py`.
- `Filters` models `_filters/filter.py` and `TokenFilters` models `_filters/token_filter.py`.
- `FilterLists` models `_filter_lists/filter_list.py` and `Tokens` models `_filter_lists/tokens.py`.
- `FilteringCog` models `filtering.py`.
- `Extensions` models `bot/utils/extensions.py`.

## Model

| member | source | states |
|---|---|---|
| FilterContexts.FilterContext.constructor | bot/exts/filtering/_filter_context.py:14-28 | A fresh context holds its inputs as given and every output at its dataclass default: no DM text, an empty embed, an alert to be sent, and no alert content or embeds. |
| FilterContexts.EventMember | bot/exts/filtering/_filter_context.py:9-11 | `Event.<name>` with the two intended members: it succeeds exactly for `ON_MESSAGE` and `ON_MESSAGE_EDIT`, giving the kind declared under that name, and raises AttributeError for any other name. |
| FilterContexts.EventMemberRoundTrip | bot/exts/filtering/_filter_context.py:9-11 | Every event kind is found again by its own member name. |
| FilterContexts.EventCounterexample | bot/exts/filtering/_filter_context.py:10-11 | As written, looking up either declared name raises AttributeError, where the intended enum gives the kind. |
| FilterContexts.Mention | bot/exts/filtering/_settings_types/infraction_and_notification.py:65 | The author's mention is a `<@…>` token. |
| EnabledSetting.Create | bot/exts/filtering/_settings_types/enabled.py:13-14 | The entry keeps the raw value; only its truthiness matters later. |
| EnabledSetting.TriggersOn | bot/exts/filtering/_settings_types/enabled.py:16-18 | `enabled` triggers exactly when its stored value is truthy. |
| EnabledSetting.TriggersOnIgnoresContext | bot/exts/filtering/_settings_types/enabled.py:16-18 | `enabled` gives the same answer on every context, and that answer is the flag's truthiness. |
| FilterDmSetting.Create | bot/exts/filtering/_settings_types/filter_dm.py:13-14 | The entry keeps the raw value. |
| FilterDmSetting.TriggersOn | bot/exts/filtering/_settings_types/filter_dm.py:16-18 | `filter_dm` triggers in a guild, or outside one when `apply_in_dm` is truthy. |
| FilterDmSetting.TriggersOnCases | bot/exts/filtering/_settings_types/filter_dm.py:16-18 | In a guild the entry always passes. In a DM it passes exactly when `apply_in_dm` is truthy. |
| BypassRolesSetting.Create | bot/exts/filtering/_settings_types/bypass_roles.py:15-16 | The role set is the set of ids in the raw list. Anything other than a list of ids is a load error. |
| BypassRolesSetting.TriggersOn | bot/exts/filtering/_settings_types/bypass_roles.py:18-22 | A non-member always triggers. A member triggers when none of their roles is a bypass role. |
| BypassRolesSetting.TriggersOnIffDisjoint | bot/exts/filtering/_settings_types/bypass_roles.py:18-22 | For a guild member, the entry passes exactly when none of the member's roles is a bypass role. |
| BypassRolesSetting.NonMemberAlwaysTriggers | bot/exts/filtering/_settings_types/bypass_roles.py:20-21 | An author who is not a guild member is never bypassed. |
| BypassRolesSetting.EmptyBypassAlwaysTriggers | bot/exts/filtering/_settings_types/bypass_roles.py:22 | With no bypass roles, everyone triggers. |
| BypassRolesSetting.BypassMonotone | bot/exts/filtering/_settings_types/bypass_roles.py:22 | Adding bypass roles can only stop the filter, never start it. |
| ChannelScopeSetting.IdsOrEmpty | bot/exts/filtering/_settings_types/channel_scope.py:18-31 | A missing key is a KeyError under that key, and a non-dictionary fails with the same error as reading the field. A falsy field gives the empty set. A truthy field gives exactly the id set read from it. |
| ChannelScopeSetting.Create | bot/exts/filtering/_settings_types/channel_scope.py:17-31 | Each of the three sets is read from its own key. Loading fails exactly when one of the three fields fails. |
| ChannelScopeSetting.TriggersOn | bot/exts/filtering/_settings_types/channel_scope.py:33-49 | The channel, or a thread's parent, triggers when it is enabled, or when neither it nor its category is disabled. |
| ChannelScopeSetting.TriggersOnPrecedence | bot/exts/filtering/_settings_types/channel_scope.py:33-49 | An enabled channel always triggers. Otherwise a disabled channel or a disabled category stops the filter, and anything else triggers. |
| ChannelScopeSetting.ThreadJudgedByParent | bot/exts/filtering/_settings_types/channel_scope.py:40-42 | A thread is judged exactly as its parent channel would be. |
| ChannelScopeSetting.EmptyScopeAlwaysTriggers | bot/exts/filtering/_settings_types/channel_scope.py:36-38 | With nothing disabled, the filter is invoked by default. |
| ChannelScopeSetting.CategoryIgnoredAsWritten | bot/exts/filtering/_settings_types/channel_scope.py:47 | As written, a channel in a disabled category still triggers. The corrected rule stops it. |
| ChannelScopeSetting.TriggersOnAsWritten | bot/exts/filtering/_settings_types/channel_scope.py:44-49 | As written, the category test never stops a channel, so only an enabled or a not-disabled channel decides. |
| DeleteMessagesSetting.Create | bot/exts/filtering/_settings_types/delete_messages.py:16-17 | The entry keeps the raw value. |
| DeleteMessagesSetting.PyOr | bot/exts/filtering/_settings_types/delete_messages.py:33 | Python `or` returns one of its operands, and the result is truthy exactly when either operand is. |
| DeleteMessagesSetting.Or | bot/exts/filtering/_settings_types/delete_messages.py:28-33 | The combination deletes exactly when either side deletes. |
| DeleteMessagesSetting.OrAssociative | bot/exts/filtering/_settings_types/delete_messages.py:28-33 | Combining is associative, so the order of combination among triggered filters does not matter. |
| DeleteMessagesSetting.OrIdempotent | bot/exts/filtering/_settings_types/delete_messages.py:28-33 | Combining an entry with itself changes nothing. |
| DeleteMessagesSetting.OrCommutative | bot/exts/filtering/_settings_types/delete_messages.py:28-33 | The decision to delete is independent of operand order. On booleans the whole entry is. |
| DeleteMessagesSetting.OrValueNotCommutative | bot/exts/filtering/_settings_types/delete_messages.py:33 | On two truthy non-boolean values the stored value depends on operand order. |
| DeleteMessagesSetting.Action | bot/exts/filtering/_settings_types/delete_messages.py:19-26 | Exactly one deletion, of the context's own message, happens when there is a message and it is in a guild. Otherwise there is none. |
| PingSetting.Create | bot/exts/filtering/_settings_types/ping.py:19-21 | Both mention sets are read from their own keys. Loading fails exactly when either field is missing or is not a list of ids. |
| PingSetting.Or | bot/exts/filtering/_settings_types/ping.py:28-36 | The combination contains both sides' guild mentions and both sides' DM mentions. |
| PingSetting.OrIsLeastUpperBound | bot/exts/filtering/_settings_types/ping.py:33-36 | The combination is the smallest entry containing both sides, so it is exactly the union. |
| PingSetting.OrCommutative | bot/exts/filtering/_settings_types/ping.py:33-36 | Operand order does not matter. |
| PingSetting.OrIdempotent | bot/exts/filtering/_settings_types/ping.py:33-36 | Combining an entry with itself changes nothing. |
| PingSetting.OrAssociative | bot/exts/filtering/_settings_types/ping.py:33-36 | Grouping does not matter. |
| PingSetting.ResolveMention | bot/exts/filtering/_settings_types/ping.py:38-45 | The result is a mention token. |
| PingSetting.ResolveMentionKind | bot/exts/filtering/_settings_types/ping.py:42-45 | A role mention `<@&…>` is produced exactly when the id is one of the guild's roles. Otherwise it is a user mention. |
| PingSetting.ResolveMentionInjective | bot/exts/filtering/_settings_types/ping.py:42-45 | Different ids resolve to different mentions. |
| PingSetting.ResolveAll | bot/exts/filtering/_settings_types/ping.py:26 | Mapping resolves each id in place. |
| PingSetting.Enumerate | bot/exts/filtering/_settings_types/ping.py:26 | Iterating a set visits each element exactly once. |
| PingSetting.Action | bot/exts/filtering/_settings_types/ping.py:23-26 | The alert content becomes the resolved mentions (guild mentions in a guild, DM mentions otherwise), joined by spaces in some iteration order, then a space, then the old content. |
| InfractionAndNotificationSetting.Rank | bot/exts/filtering/_settings_types/infraction_and_notification.py:15-25 | Each infraction type has a position in declaration order, below nine. |
| InfractionAndNotificationSetting.RankInjective | bot/exts/filtering/_settings_types/infraction_and_notification.py:15-25 | Distinct infraction types have distinct ranks. |
| InfractionAndNotificationSetting.Lookup | bot/exts/filtering/_settings_types/infraction_and_notification.py:52 | Looking up a member by name gives back a member of that name. |
| InfractionAndNotificationSetting.MemberNameCapitals | bot/exts/filtering/_settings_types/infraction_and_notification.py:15-25 | Every member name is non-empty and made only of capital letters and underscores. |
| InfractionAndNotificationSetting.LookupMemberName | bot/exts/filtering/_settings_types/infraction_and_notification.py:52 | Every member is found by its own name. |
| InfractionAndNotificationSetting.Normalise | bot/exts/filtering/_settings_types/infraction_and_notification.py:52 | Normalising the type text replaces spaces with underscores and upper-cases, character by character. |
| InfractionAndNotificationSetting.NormaliseFixesNames | bot/exts/filtering/_settings_types/infraction_and_notification.py:52 | Text that is already a member name is unchanged by normalising. |
| InfractionAndNotificationSetting.ParseType | bot/exts/filtering/_settings_types/infraction_and_notification.py:51-54 | A falsy type is `NONE`. A parsed type is the member whose name is the normalised text. |
| InfractionAndNotificationSetting.ParseTypeRoundTrip | bot/exts/filtering/_settings_types/infraction_and_notification.py:51-54 | Every member parses back from its own name. |
| InfractionAndNotificationSetting.Duration | bot/exts/filtering/_settings_types/infraction_and_notification.py:56 | A duration loads exactly when it is a number. |
| InfractionAndNotificationSetting.SuperstarField | bot/exts/filtering/_settings_types/infraction_and_notification.py:60 | A missing `superstar` key gives no superstar data. |
| InfractionAndNotificationSetting.Create | bot/exts/filtering/_settings_types/infraction_and_notification.py:50-60 | A loaded entry has every field read from its own key: type, reason, duration, DM content, DM embed and the optional superstar part. A missing required key fails the load. A missing `infraction_type` is exactly a KeyError on that key, and a non-dictionary is a TypeError. |
| InfractionAndNotificationSetting.Bulleted | bot/exts/filtering/_settings_types/infraction_and_notification.py:147-150 | A bulleted message starts with "•" and ends with the original message. |
| InfractionAndNotificationSetting.BulletedIdempotent | bot/exts/filtering/_settings_types/infraction_and_notification.py:147-150 | A message is never prefixed twice. |
| InfractionAndNotificationSetting.MergeMessages | bot/exts/filtering/_settings_types/infraction_and_notification.py:137-145 | An empty side gives back the other side unchanged, so two empty sides give "". |
| InfractionAndNotificationSetting.MergeNonEmpty | bot/exts/filtering/_settings_types/infraction_and_notification.py:147-151 | Two non-empty messages become two bullet points separated by a blank line. The result is itself bulleted and ends with the second message. |
| InfractionAndNotificationSetting.MergeAssociative | bot/exts/filtering/_settings_types/infraction_and_notification.py:137-151 | Merging is associative, so combining three entries' messages gives one result whatever the grouping. |
| InfractionAndNotificationSetting.MoreSevere | bot/exts/filtering/_settings_types/infraction_and_notification.py:120-124 | One of the two entries is chosen, and its type ranks at least as high as both. |
| InfractionAndNotificationSetting.StarData | bot/exts/filtering/_settings_types/infraction_and_notification.py:105-113 | The superstar a SUPERSTAR entry stands for is its own superstar part when it has one. Otherwise it is the entry's reason and duration. |
| InfractionAndNotificationSetting.SuperstarSide | bot/exts/filtering/_settings_types/infraction_and_notification.py:105-113 | With exactly one SUPERSTAR side, that side's superstar is merged with the first superstar part present: reasons merged, longest duration kept. With no part on either entry, the superstar alone is kept. |
| InfractionAndNotificationSetting.PrimaryRank | bot/exts/filtering/_settings_types/infraction_and_notification.py:101-126 | The rank used for the primary infraction agrees with the declared order, except that SUPERSTAR yields to any other type. |
| InfractionAndNotificationSetting.PrimaryRankInjective | bot/exts/filtering/_settings_types/infraction_and_notification.py:101-126 | Distinct types have distinct primary ranks, so there is always a strict winner. |
| InfractionAndNotificationSetting.Or | bot/exts/filtering/_settings_types/infraction_and_notification.py:95-135 | The combined type is one of the two, and it ranks at least as high as both. |
| InfractionAndNotificationSetting.OrDifferentTypes | bot/exts/filtering/_settings_types/infraction_and_notification.py:120-126 | For different types (neither SUPERSTAR), the higher-ranked side's type and exactly its duration are kept. |
| InfractionAndNotificationSetting.OrSameType | bot/exts/filtering/_settings_types/infraction_and_notification.py:127-129 | For the same type, that type is kept with the larger of the two durations. |
| InfractionAndNotificationSetting.OrMergesMessages | bot/exts/filtering/_settings_types/infraction_and_notification.py:130-133 | Outside the superstar branch, the reason, DM content and DM embed are the merged messages, and the first present superstar part is kept. |
| InfractionAndNotificationSetting.OrOneSuperstar | bot/exts/filtering/_settings_types/infraction_and_notification.py:101-118 | When exactly one side is SUPERSTAR, the other side's infraction, reason, duration and DM fields are kept unchanged. The superstar part is `SuperstarSide`. |
| InfractionAndNotificationSetting.SuperstarSideKeepsBoth | bot/exts/filtering/_settings_types/infraction_and_notification.py:105-113 | The superstar part lasts at least as long as the SUPERSTAR side's own superstar, and at least as long as the first existing part. It ends with that part's reason. With no part on either entry, it is the SUPERSTAR entry's reason and duration. |
| InfractionAndNotificationSetting.OrPrimary | bot/exts/filtering/_settings_types/infraction_and_notification.py:95-135 | The primary infraction (type and duration) of a combination is a lexicographic maximum of the two sides' primaries. |
| InfractionAndNotificationSetting.CombinePrimaryCommutative | bot/exts/filtering/_settings_types/infraction_and_notification.py:120-129 | The reference combination ignores operand order. |
| InfractionAndNotificationSetting.CombinePrimaryAssociative | bot/exts/filtering/_settings_types/infraction_and_notification.py:120-129 | The reference combination ignores grouping. |
| InfractionAndNotificationSetting.OrPrimaryOrderIndependent | bot/exts/filtering/_settings_types/infraction_and_notification.py:95-96 | The infraction finally issued does not depend on the order in which triggered filters are combined. |
| InfractionAndNotificationSetting.ReplyChannel | bot/exts/filtering/_settings_types/infraction_and_notification.py:85-87 | The reply goes to mod-alerts exactly when the infraction is a ban or the channel is outside a guild. |
| InfractionAndNotificationSetting.Commands | bot/exts/filtering/_settings_types/infraction_and_notification.py:76-92 | One command for the superstar side-channel when it is set and one for the infraction unless its type is NONE, all against the author. The superstar command comes first and replies in the origin channel. The infraction command comes last, named after the type, with the entry's duration and reason. |
| InfractionAndNotificationSetting.Action | bot/exts/filtering/_settings_types/infraction_and_notification.py:62-93 | The DM embed gets "Hey <mention>!" plus the merged description, and the blurple colour when it has none. The DM text is merged. Effects, in order: the DM (or a post in the channel when DMs are forbidden); then the commands `Commands` lists. |
| InfractionAndNotificationSetting.AliasedMembersCounterexample | bot/exts/filtering/_settings_types/infraction_and_notification.py:17-25 | With the members aliased as written, BAN equals NONE, so no infraction is ever issued. Any two types compare equal, so every combination takes lines 127-129, and the stored member cannot be read back. With distinct members, a ban is issued, and a warning and a ban combine into the ban. |
| InfractionAndNotificationSetting.SuperstarSideCounterexample | bot/exts/filtering/_settings_types/infraction_and_notification.py:105-113 | As written, combining a SUPERSTAR entry that has no superstar part with a MUTE raises, whether or not the MUTE has a part. The corrected combination keeps the mute. It records the star's reason and duration, merged with the mute's part when there is one. |
| InfractionAndNotificationSetting.SuperstarSideAgreesAsWritten | bot/exts/filtering/_settings_types/infraction_and_notification.py:105-113 | Lines 105-113 as written fail exactly when the SUPERSTAR side has no superstar part of its own. Wherever they succeed, they give the same part as the corrected `SuperstarSide`. |
| InfractionAndNotificationSetting.StoredMemberCounterexample | bot/exts/filtering/_settings_types/infraction_and_notification.py:128 | As written, combining two entries of the same type stores an enum member where a name is read back, so re-loading fails. Storing the name gives back the combined type. |
| SettingsEntries.ValidationName | bot/exts/filtering/_settings_types/enabled.py:10 | Every validation entry's name is a registered validation name. |
| SettingsEntries.ActionName | bot/exts/filtering/_settings_types/ping.py:13 | Every action entry's name is a registered action name. |
| SettingsEntries.TriggersOn | bot/exts/filtering/_settings.py:69 | A validation entry triggers by its own kind's rule: `enabled`, `filter_dm`, `bypass_roles` or `channel_scope`. |
| SettingsEntries.CreateValidation | bot/exts/filtering/_settings.py:41 | An entry holding no value is absent. A created entry has the requested name. |
| SettingsEntries.CreateAction | bot/exts/filtering/_settings.py:39 | An entry holding no value is absent. A created entry has the requested name. |
| SettingsEntries.Combine | bot/exts/filtering/_settings_types/ping.py:28-31 | Entries combine exactly when they are of the same kind (otherwise `NotImplemented`). Two `delete_messages`, two `mentions` or two `infraction_and_notification` entries combine by that kind's own `Or`. |
| SettingsCollection.NamesIn | bot/exts/filtering/_settings.py:37-41 | The set holds exactly the given names that appear in the data. |
| SettingsCollection.UnknownNames | bot/exts/filtering/_settings.py:42-44 | The set holds exactly the names in the data that no entry type claims. |
| SettingsCollection.AddSettingWellKeyed | bot/exts/filtering/_settings.py:37-41 | Adding a setting keeps actions under action names and validations under validation names. |
| SettingsCollection.AddActionSetting | bot/exts/filtering/_settings.py:38-39 | An action name goes to the actions, replacing any earlier value, and leaves the validations alone. |
| SettingsCollection.AddValidationSetting | bot/exts/filtering/_settings.py:40-41 | A validation name goes to the validations and leaves the actions alone. |
| SettingsCollection.NamesInSnoc | bot/exts/filtering/_settings.py:37 | One more item adds at most its own name. |
| SettingsCollection.SettingsFromPartitions | bot/exts/filtering/_settings.py:33-44 | A loaded collection is keyed by exactly the action names and the validation names present in the data, each kind in its own map. |
| SettingsCollection.SettingsFromErrorSticks | bot/exts/filtering/_settings.py:37-41 | An exception while loading a prefix of the data is the outcome of the whole load. |
| SettingsCollection.WarnedNames.constructor | bot/exts/filtering/_settings.py:31 | The set of names already warned about starts empty. |
| SettingsCollection.Load | bot/exts/filtering/_settings.py:33-44 | The loop computes the specification's collection. It warns about each unknown name at most once across all loads: a warning is exactly a name newly added to the shared set, and on success every unknown name ends up in it. |
| SettingsCollection.CreateNoneIffNothingRecognised | bot/exts/filtering/_settings.py:46-60 | `create` gives None exactly when no name in the data is recognised. Otherwise it gives the loaded collection. |
| SettingsCollection.Create | bot/exts/filtering/_settings.py:46-60 | `create` computes its specification. The warnings are exactly the newly warned names, each logged once. The warned set only grows, and only by unknown names of the data; on success it grows by all of them. |
| SettingsCollection.Evaluate | bot/exts/filtering/_settings.py:62-74 | The passed and failed names are disjoint, together cover every present validation, and are exactly those whose validation triggers or does not. |
| SettingsCollection.DisabledFails | bot/exts/filtering/_settings.py:62-74 | A collection with `enabled: false` fails exactly `enabled` and passes nothing. |
| Filters.FilterFromAsWritten | bot/exts/filtering/_filters/filter.py:20-25 | As written, a loaded filter always carries a settings object. |
| Filters.FilterFrom | bot/exts/filtering/_filters/filter.py:20-25 | A filter loads exactly when its settings load. Its id, token, description and exactness are its record's fields. |
| Filters.FilterFromSettings | bot/exts/filtering/_filters/filter.py:24 | A filter has no settings exactly when its settings data holds nothing recognised. Otherwise it holds the loaded collection. |
| Filters.Applies | bot/exts/filtering/_filters/filter.py:27-29 | A filter applies when it has no settings or none of its present validations fails. |
| Filters.Build | bot/exts/filtering/_filters/filter.py:20-25 | Building a filter computes the specification. The warnings are exactly the newly warned names, each logged once. The warned set only grows, and only by unknown setting names of the record; on success it grows by all of them. |
| Filters.AppliesIffAllTrigger | bot/exts/filtering/_filters/filter.py:27-29 | A filter applies exactly when every present validation in its settings triggers. A filter without settings always applies. |
| FilterLists.ListTypeOf | bot/exts/filtering/_filter_lists/filter_list.py:17-19 | Only the values 0 and 1 name a list type. Any other value is a ValueError. |
| FilterLists.ListTypeRoundTrip | bot/exts/filtering/_filter_lists/filter_list.py:17-19 | List types and their values convert back and forth without loss. |
| FilterLists.FilterListResult | bot/exts/filtering/_filter_lists/filter_list.py:52-77 | The loop computes the specification `Sift`. |
| FilterLists.SiftIsSubsequence | bot/exts/filtering/_filter_lists/filter_list.py:67-77 | The triggered filters are a subsequence of the list, in list order. |
| FilterLists.SubsequenceExtend | bot/exts/filtering/_filter_lists/filter_list.py:68 | A subsequence stays one when the list grows. |
| FilterLists.SubsequenceDropLast | bot/exts/filtering/_filter_lists/filter_list.py:71 | Dropping the last element of a subsequence leaves a subsequence. |
| FilterLists.SiftMembership | bot/exts/filtering/_filter_lists/filter_list.py:52-77 | A filter is triggered exactly when it is in the list and its settings beat the defaults. |
| FilterLists.NoOverridesFollowDefault | bot/exts/filtering/_filter_lists/filter_list.py:65-71 | A filter without overrides triggers exactly when no default validation fails. |
| FilterLists.EqualOverrideDoesNotFire | bot/exts/filtering/_filter_lists/filter_list.py:74 | Because the subset test is strict, overrides that pass exactly the failing defaults do not trigger. |
| FilterLists.NoPassingOverrideNeverFires | bot/exts/filtering/_filter_lists/filter_list.py:74 | Overrides that pass nothing never trigger. |
| FilterLists.OverrideRescues | bot/exts/filtering/_filter_lists/filter_list.py:59-62 | With no failed override, a failing default is overridden by a successful override, and one more pass makes the filter trigger. |
| FilterLists.SettingsNeverNoneCounterexample | bot/exts/filtering/_filters/filter.py:24 | As written, a filter with empty settings never takes the no-override branch, so it cannot trigger. The corrected load lets it follow the defaults. |
| FilterLists.FiltersFrom | bot/exts/filtering/_filter_lists/filter_list.py:40 | A loaded list holds, position by position, the loaded filters. |
| FilterLists.FiltersFromErrorSticks | bot/exts/filtering/_filter_lists/filter_list.py:40 | An exception on a prefix is the outcome of the whole list. |
| FilterLists.FiltersUnknownNamesPrefix | bot/exts/filtering/_filter_lists/filter_list.py:40 | Loading a prefix of the filter records meets no unknown setting name that loading all of them would not. |
| FilterLists.BuildFilters | bot/exts/filtering/_filter_lists/filter_list.py:40 | The list comprehension computes its specification. The warnings are exactly the newly warned names. The warned set grows only by unknown setting names of the filters, and on success by all of them. |
| FilterLists.Added | bot/exts/filtering/_filter_lists/filter_list.py:38-45 | After adding a record that loads, its list type maps to its filters and its settings, and every other list type keeps its filters and defaults. A record that fails to load leaves the contents unchanged. |
| FilterLists.FilterList.constructor | bot/exts/filtering/_filter_lists/filter_list.py:32-36 | A new filter list has its name and no lists or defaults. |
| FilterLists.FilterList.AddList | bot/exts/filtering/_filter_lists/filter_list.py:38-45 | The list's contents become `Added` of its old contents. On success exactly that list type's filters and defaults are replaced by the record's. On an exception nothing changes and the error is the record's. The warnings are exactly the newly warned setting names. The warned set grows only by unknown names of the filters' and the list's settings, and on success by all of them. |
| TokenFilters.Anchored | bot/exts/filtering/_filters/token_filter.py:14-19 | An inexact pattern is unchanged. An exact one starts and ends with a word boundary. |
| TokenFilters.TriggeredOn | bot/exts/filtering/_filters/token_filter.py:12-21 | A token filter triggers exactly when the regex search finds its anchored pattern in the content. |
| TokenFilters.AnchoredAddsAtMostOne | bot/exts/filtering/_filters/token_filter.py:16-19 | Anchoring adds at most one boundary on each side. The front one is added exactly when the pattern does not start with one, and the end one exactly when the front-anchored pattern does not end with one. |
| TokenFilters.AnchoredIdempotent | bot/exts/filtering/_filters/token_filter.py:16-19 | Anchoring twice is anchoring once. |
| TokenFilters.TriggeredOnInexact | bot/exts/filtering/_filters/token_filter.py:12-21 | An inexact filter searches for its raw token in the content. |
| TokenFilters.BackspaceCounterexample | bot/exts/filtering/_filters/token_filter.py:16-19 | As written, a backspace character is added instead of the two-character `\b`, and anchoring is not idempotent. The corrected anchoring adds `\b`. |
| Tokens.ExpandSpoilers | bot/exts/filtering/_filter_lists/tokens.py:33-39 | The expansion joins the even segments, then the odd segments, then all segments. |
| Tokens.EvensOddsLength | bot/exts/filtering/_filter_lists/tokens.py:36-39 | The even and odd segments together are as long as the text. |
| Tokens.ExpandSpoilersShape | bot/exts/filtering/_filter_lists/tokens.py:33-39 | The expansion is the text outside spoilers, then the spoilers, then the whole text. It is twice as long as the text and ends with it. |
| Tokens.SplitIffSpoiler | bot/exts/filtering/_filter_lists/tokens.py:26-36 | A split of the text on the spoiler pattern has more than one segment exactly when a search for the pattern succeeds. |
| Tokens.TriggerFor | bot/exts/filtering/_filter_lists/tokens.py:23-31 | The content is rewritten in place: spoilers are expanded exactly when a search for the spoiler pattern succeeds, then the text is cleaned. The split has more than one segment exactly then. The result is the deny list sifted with its defaults. |
| FilteringCog.SubscribedCharacterised | bot/exts/filtering/filtering.py:42-57 | After subscribing, exactly the given events have a key added. Each given event's list holds the list once at the end, if it was not there before. Other events are unchanged. |
| FilteringCog.SubscribedProperties | bot/exts/filtering/filtering.py:55-57 | Old subscribers stay, in order, as a prefix. A list subscribed to an event is among its subscribers. An event's subscribers stay free of repeats. Events not given are unchanged. |
| FilteringCog.SubscribedIdempotent | bot/exts/filtering/filtering.py:55-57 | Subscribing twice to the same events is subscribing once. |
| FilteringCog.SubscriptionsExtendTransitive | bot/exts/filtering/filtering.py:55-57 | Successive subscriptions keep extending every event's list. |
| FilteringCog.SubscriptionsExtendKeeps | bot/exts/filtering/filtering.py:55-57 | A list that listens to both message events keeps listening after more subscriptions. |
| FilteringCog.Decide | bot/exts/filtering/filtering.py:34-40 | An unknown name is warned about exactly once, if not yet warned. A known name is instantiated exactly when no list of that name exists. |
| FilteringCog.UnknownListCounterexample | bot/exts/filtering/filtering.py:35-39 | As written, a second record under an unknown name raises KeyError where the intended rule skips it. Otherwise the two agree. |
| FilteringCog.DecideAsWritten | bot/exts/filtering/filtering.py:34-40 | As written: an existing list is reused; an unknown name not yet warned about is warned about; an unknown name already warned about raises KeyError; a known name is instantiated. |
| FilteringCog.LoadAsWritten | bot/exts/filtering/filtering.py:31-40 | Helper: the loop as written, giving the names of the lists the cog holds afterwards, or the exception that stops it. |
| FilteringCog.AbstractListCounterexample | bot/exts/filtering/filtering.py:39 | As written, a cog that starts with no lists still holds none whenever the loop finishes. Any record with a registered name makes the loop raise. A first record named `tokens` raises TypeError (the list class leaves the abstract `triggers_for` undefined) where the intended rule instantiates it. |
| FilteringCog.ListNamesStep | bot/exts/filtering/filtering.py:32 | One more record adds at most its own name to the known or unknown names. |
| FilteringCog.Grown | bot/exts/filtering/filtering.py:32-40 | Since a snapshot, the lists are the snapshot's plus one per known name loaded, each new one listening to both message events. The subscriptions only extended, and the warned names are the unknown names seen. |
| FilteringCog.GrownUnknownStep | bot/exts/filtering/filtering.py:35-38 | A record with an unknown name leaves the lists alone and adds its name to the warned set. |
| FilteringCog.GrownKnownStep | bot/exts/filtering/filtering.py:34-40 | A record with a known name that keeps every list, adds at most its own listening list, and only extends the subscriptions keeps `Grown`. |
| FilteringCog.Loaded | bot/exts/filtering/filtering.py:32-40 | What a named list holds after `add_list` of each of its records, in order. |
| FilteringCog.LoadedStep | bot/exts/filtering/filtering.py:32-40 | One more record changes only the list of its own name, by `Added`. |
| FilteringCog.LoadedOtherNames | bot/exts/filtering/filtering.py:33-34 | Records of other names leave a list as it was. |
| FilteringCog.LoadedHasTypes | bot/exts/filtering/filtering.py:40 | Loading never drops a list type, and each loading record of the name leaves its list type present. |
| FilteringCog.LastRecordWins | bot/exts/filtering/_filter_lists/filter_list.py:43-45 | For a list name, the last loading record of a list type decides what that type holds: exactly its filters and its defaults. |
| FilteringCog.Follows | bot/exts/filtering/filtering.py:32-40 | Every list holds what `Loaded` gives for the records so far, starting from its contents before loading (nothing, for a new list). |
| FilteringCog.FollowsOtherName | bot/exts/filtering/filtering.py:35-38 | A record whose name has no list keeps every list following the records. |
| FilteringCog.FollowsAdded | bot/exts/filtering/filtering.py:39-40 | Adding a record to its own list, existing or new, keeps every list following the records. |
| FilteringCog.AllLoad | bot/exts/filtering/filtering.py:40 | Every record with a known name loads. |
| FilteringCog.StopsAtFails | bot/exts/filtering/filtering.py:32-40 | A load that stopped at a failing record did not load every record. |
| FilteringCog.UnknownListNamesPrefix | bot/exts/filtering/filtering.py:34-37 | The records taken so far have no unknown list name that the whole sequence lacks. |
| FilteringCog.TriggeredAcrossMembers | bot/exts/filtering/filtering.py:62-64 | A filter is collected exactly when some subscribed list's deny list triggers it. |
| FilteringCog.Filtering.constructor | bot/exts/filtering/filtering.py:20-23 | The cog starts with no lists and no subscriptions. |
| FilteringCog.Filtering.Subscribe | bot/exts/filtering/filtering.py:42-57 | The subscriptions become the specification's `Subscribed`. |
| FilteringCog.Filtering.NewList | bot/exts/filtering/_filter_lists/tokens.py:19-21 | A new list holding nothing is stored under its name, and every other list keeps its contents. It listens to both message events, and old subscribers keep their places. |
| FilteringCog.Filtering.AddTo | bot/exts/filtering/filtering.py:40 | Adding a record to the named list succeeds exactly when its outcome loads. That list's contents become `Added` of its old contents and the record, and every other list keeps its contents. |
| FilteringCog.Filtering.LoadKnown | bot/exts/filtering/filtering.py:34-40 | For a known name, the list is created if it is missing and the record added to it. Old lists stay the same objects, and a new one is fresh and listens to both message events. The named list holds `Added` of what it held (nothing, if new). |
| FilteringCog.Filtering.LoadKnownAt | bot/exts/filtering/filtering.py:32-40 | A record with a known name keeps `LoadedSince` from the records before it to the records including it. New lists are fresh, and it succeeds exactly when the record loads. |
| FilteringCog.Filtering.LoadedSince | bot/exts/filtering/filtering.py:26-40 | The cog is valid, the lists have `Grown` since the snapshot, and they follow the records loaded. |
| FilteringCog.Filtering.OnMessage | bot/exts/filtering/filtering.py:59-64 | A context is built for the message event. The collected filters are every subscribed list's deny-list result, concatenated in subscription order. |
| FilteringCog.Filtering.LoadOne | bot/exts/filtering/filtering.py:32-40 | One raw list record. The list names grow by its name if known, and the warned set grows by it if unknown. A warning is emitted only the first time. Every list still holds what `Loaded` gives for the records so far. It succeeds exactly when every record so far with a known name loads. |
| FilteringCog.Filtering.LoadRecords | bot/exts/filtering/filtering.py:32-40 | The loop takes the records in order. It stops after all of them, or right after the first that fails to load (`StopsAt`). The lists, subscriptions and warned names are then what loading exactly the records taken gives, and the warnings are exactly their unknown names. |
| FilteringCog.Filtering.InitCog | bot/exts/filtering/filtering.py:26-40 | Existing lists are kept, and new ones are fresh and listen to both message events. Warnings are unknown names, without repeats. It succeeds exactly when every record with a known name loads. On success, the loaded names are exactly the known names in the records, and every unknown name was warned about. Every list then holds what `Loaded` gives for all the records, so each list type holds its last loading record's filters and defaults (`LastRecordWins`). On failure, loading stopped at the first record that fails (`StopsAt`): every record before it loaded, and the lists hold what `Loaded` gives for the records up to and including it, so no later record was loaded. |
| Extensions.Unqualify | bot/utils/extensions.py:9-11 | The result has no dot, ends the name, and is preceded by a dot whenever it is shorter than the name, so it is the part after the last dot. |
| Extensions.UnqualifyPlain | bot/utils/extensions.py:11 | A name with no dot is returned unchanged. |
| Extensions.UnqualifyQualified | bot/utils/extensions.py:11 | Unqualifying `package.name` gives `name` back, whatever the package. |
| Extensions.ComponentsSnoc | bot/utils/extensions.py:16 | Splitting a name extended by one character opens an empty part after a dot, or extends the last part. |
| Extensions.ComponentsDotFree | bot/utils/extensions.py:16 | No part of the split contains a dot. |
| Extensions.ComponentsJoin | bot/utils/extensions.py:16 | Joining the parts with dots gives the name back, so the split loses nothing. |
| Extensions.LastComponentEmpty | bot/utils/extensions.py:16 | The last part is empty exactly when the name is empty or ends in a dot. |
| Extensions.IgnoreModule | bot/utils/extensions.py:14-16 | A module is ignored when some dot-separated part of its name starts with an underscore. |
| Extensions.IgnoreModuleCharacterised | bot/utils/extensions.py:14-16 | A module is ignored exactly when an underscore starts its name or follows a dot. |
| Extensions.ExtensionNamesMembers | bot/utils/extensions.py:25-36 | A name is yielded exactly when a walked module of that name is not ignored and is a plain module or a package with `setup`. |
| Extensions.WalkExtensions | bot/utils/extensions.py:19-36 | The loop yields the specification's names, in walk order. |

## Left out

- Discord and network calls are not performed. Sending DMs and alerts, deleting messages and invoking commands are returned as `Effect` values. A forbidden DM is an input flag. The API fetch of the raw lists is an input sequence.
- Logging: warnings about unknown names are returned as sequences of names instead of being logged.
- The Unicode cleaning of `clean_input` (`regex` property classes) and the spoiler regex are parameters (`clean`, `split`). The model requires the split to be a valid spoiler split and states nothing more about cleaning.
- Regex search in `TokenFilter.triggered_on` is a parameter `search`. Only the pattern anchoring is modelled.
- The `settings_types` registry module and `settings_entry.py` are not part of this model. The registry is the closed set of seven entry types in `SettingsEntries`. An entry's `create` gives no entry when the raw value holds nothing (null or a dict with no truthy value), as the comment at `_settings.py:55` states.
- `subclasses_in_package`, `FieldRequiring` and the `pkgutil`/`importlib` walk are not modelled. `walk_extensions` takes the walked modules as data, with `hasSetup` standing for "importing it gives a `setup` function". `EXTENSIONS` is the set of `ExtensionNames`.
- FilteringCog.Filtering.OnMessage: as written, `Event` has no members (`_filter_context.py:10-11`), so `Event.ON_MESSAGE` raises AttributeError at `filtering.py:61` and `:63`, in the token list's constructor (`tokens.py:21`) and in the deletion action (`delete_messages.py:21`); the model, and `DeleteMessagesSetting.Action` and `FilteringCog.Filtering.NewList` with it, uses the two intended members (see Findings).
- The alert send at `filtering.py:65` passes a generator to `send`, and the alert text is not built. `OnMessage` returns the collected filters instead.
- InfractionAndNotificationSetting.Duration: durations are whole numbers; the float conversion of `float(...)` is not modelled.
- InfractionAndNotificationSetting.Create: the source stores `infraction_reason`, `dm_content`, `dm_embed` and `superstar` as whatever values they are. The model accepts only strings or null for the three texts (null read as ""), and only a two-element `[reason, seconds]` list for the superstar part. Any other value is a TypeError in the model, though the source would store it.
- BypassRolesSetting.Create: `set(...)` in the source accepts any iterable (a string's characters, a dictionary's keys, negative numbers). The model accepts only a list of non-negative integer ids and reports anything else as a TypeError.
- ChannelScopeSetting.Create: as for `bypass_roles`, each truthy id field must be a list of non-negative integer ids, where the source's `set(...)` takes any iterable.
- PingSetting.Create: as for `bypass_roles`, both mention fields must be lists of non-negative integer ids, where the source's `set(...)` takes any iterable.
- Filters.FilterFrom: a filter record is a typed `FilterDescriptor`, so the KeyErrors `filter.py:21-25` raises for a missing `id`, `content`, `description`, `settings` or `additional_field` cannot occur in the model.
- FilterLists.FilterList.AddList: a raw list is a typed `ListDescriptor`, so the KeyErrors `filter_list.py:40-43` raises for a missing `filters`, `settings` or `list_type` cannot occur in the model.
- FilteringCog.Filtering.InitCog: for the same reason, the KeyError of `filtering.py:33` on a record without `name` cannot occur in the model.
- InfractionAndNotificationSetting.Normalise: upper-casing is ASCII only.
- InfractionAndNotificationSetting.Action: the time arithmetic of `arrow.utcnow() + timedelta(...)` is reduced to passing the duration in seconds.
- PingSetting.Action: the guild's role ids are a parameter, because `_resolve_mention` is called with one argument at `ping.py:26` but needs the guild; the `@cache` on it is left out.
- Tokens.TriggerFor: `self.blacklist`/`self.blacklist_defaults` do not exist on the list; the model uses the deny list and its defaults, and gives no filters when no deny list is loaded. The method is modelled under the name the cog calls (`triggers_for`) although the list defines `trigger_for`; as written the list class is therefore abstract and cannot be instantiated (see Findings).
- FilteringCog.Filtering.NewList: as written, `filter_list_types[list_name](self)` at `filtering.py:39` raises TypeError because `TokensList` does not define the abstract `triggers_for`; the model creates the intended concrete list, as `InitCog` does (see Findings).
- DeleteMessagesSetting.Action: follows the code, which deletes whether or not `delete` is truthy. A context without a message raises AttributeError on `ctx.message.guild` (`delete_messages.py:25`); the model drops that error and records no deletion.
- SettingsCollection.CreateNoneIffNothingRecognised: follows the code's `any(...)` over the dictionaries' keys, so `create` gives None only when no name is recognised, not when every recognised entry is empty.
- Filters.AppliesIffAllTrigger: `applies` iterates over a `Settings` object, which is not iterable; the model states the evident intent (every present validation triggers).
- FilteringCog.Filtering.InitCog: concurrency of the cog's start-up task and the wait for the guild are not modelled; the loop runs to the first failing list and reports its error.

## Findings

| source | as written | input that shows it | evidently intended | confidence | as-written member | corrected member |
|---|---|---|---|---|---|---|
| bot/exts/filtering/_settings_types/infraction_and_notification.py:17-25 | members are assigned `auto` (the function) so all nine alias one member | any two entries, for example a WARNING entry and a BAN entry: the types compare equal, so lines 127-128 store the member itself and rebuilding it at line 135 raises; and BAN equals NONE, so no infraction is ever issued | distinct members, ranked in declaration order | not executed | InfractionAndNotificationSetting.AliasedMembersCounterexample | InfractionAndNotificationSetting.OrPrimary |
| bot/exts/filtering/_settings_types/infraction_and_notification.py:105-113 | `superstar` is the SUPERSTAR side's own part, which may be None: line 110 indexes it, and line 113 reads `.infraction_reason` from it | a SUPERSTAR entry without a superstar part combined with a MUTE entry, with or without a part of its own | the SUPERSTAR entry's reason and duration stand in for its missing part | not executed | InfractionAndNotificationSetting.SuperstarSideCounterexample | InfractionAndNotificationSetting.SuperstarSideKeepsBoth |
| bot/exts/filtering/_settings_types/infraction_and_notification.py:128 | stores the enum member where a name string is read back | two entries of the same type combined | store the member's name | not executed | InfractionAndNotificationSetting.StoredMemberCounterexample | InfractionAndNotificationSetting.OrSameType |
| bot/exts/filtering/_filters/token_filter.py:17,19 | prepends and appends `"\b"`, a backspace character | exact token `spam` | the regex word boundary `\b` | not executed | TokenFilters.BackspaceCounterexample | TokenFilters.AnchoredIdempotent |
| bot/exts/filtering/_settings_types/channel_scope.py:47 | compares the category object with a set of ids | a channel in disabled category 20 | compare the category id | not executed | ChannelScopeSetting.CategoryIgnoredAsWritten | ChannelScopeSetting.TriggersOnPrecedence |
| bot/exts/filtering/filtering.py:35-39 | an unknown name already warned about falls through to the registry lookup | two raw lists named `spam` | skip the already-warned name | not executed | FilteringCog.UnknownListCounterexample | FilteringCog.Filtering.InitCog |
| bot/exts/filtering/filtering.py:39 | instantiates `TokensList`, which defines `trigger_for` and so leaves the abstract `triggers_for` of `FilterList` undefined | any raw list named `tokens` | instantiate the list and load the record | not executed | FilteringCog.AbstractListCounterexample | FilteringCog.Filtering.InitCog |
| bot/exts/filtering/_filter_context.py:10-11 | declares `ON_MESSAGE: 1` and `ON_MESSAGE_EDIT: 2` as annotations, so the enum has no members | any message: `Event.ON_MESSAGE` at `filtering.py:61` raises AttributeError | two members, assigned 1 and 2 | not executed | FilterContexts.EventCounterexample | FilteringCog.Filtering.OnMessage |
| bot/exts/filtering/_filters/filter.py:24 | builds `Settings(...)`, never None | a filter with empty settings data | `Settings.create(...)`, None when nothing is set | not executed | FilterLists.SettingsNeverNoneCounterexample | FilterLists.NoOverridesFollowDefault |
