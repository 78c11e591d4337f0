# Feedback platform backend: a Dafny model

This project models the domain layer of a feedback platform backend written in TypeScript
on Express and Mongoose. Users give feedback either inside a forum or person to person (P2P).
Feedback carries hashtags, reactions and a moderation status. Forums have a creator, members
and a members-only switch that decides who may see them and post in them.

The model covers these parts:

- **The hashtag pipeline.** Tags are extracted from the content (`#[a-zA-Z0-9_]+`,
  lower-cased) and merged with the explicit tags. The merge keeps the first-seen order,
  drops duplicates and keeps at most ten. A per-record add and remove exists.
- **Hashtag statistics.** The store keeps one entry per tag, with total, weekly and monthly
  counters, first and last use, and an active flag. It records tag uses, resets the counters
  and deactivates idle tags. The store answers the popular, trending, search, suggestion,
  overview and period-analysis queries.
- **The feedback record.** It has a pre-save hook that checks the forum/P2P shape and clears
  the management fields on P2P records. It also has reactions (emoji and count), a status
  change that records the moderator, and the schema validators.
- **Forums.** Membership is a duplicate-free list, and removing the creator is refused when
  the request spells the creator's id in lower case; an upper-case spelling slips past that
  check (see ## Findings). A
  forum's names must be unique, and `verificarPermissoes` gives each user a capability record.
- **Users.** The model has role predicates, schema defaults and validators, e-mail
  uniqueness, login with one uniform credential error, the additive XP update and the three
  achievement slots (corrected; see ## Findings).
- **Cross-entity bookkeeping.** `forum.feedbacks`, `feedbacksIn` and `feedbacksOut` are
  maintained when a feedback is created and when it is deleted.
- **Request guards and controller outcomes.** These are the Bearer-header checks, the role
  gates, resource ownership, and the 401/404/403 order of each handler. Query parameters are
  parsed with JavaScript's `parseInt(x) || default` and with the `'true'` flag rule. Every
  user response has `senha` removed.

Mongoose documents that instance methods change in place are classes: `FeedbackDoc`,
`ForumDoc` and `HashtagStore`. The three collections are maps in one `Database` class, which
also holds a counter for fresh ids. Each service method states its new state in terms of
pure functions, and lemmas prove what the source promises about those functions. Times are
integers in milliseconds, and the current time is a parameter. bcrypt is symbolic: a hash
records the password it was made from. JWT verification is a function parameter.

Validation runs before the user-written pre-save hook, as Mongoose's built-in validation
hook is registered first. So the hook's output (the capped tag list, the cleared P2P fields)
is saved without being validated again. `findByIdAndUpdate` with `runValidators` checks the
update's fields before the lookup. So an invalid update of a missing document is an error,
not `null`.

## Model

| member | source | states |
|---|---|---|
| Text.ExtractHashtags | backend/src/models/Feedback.ts:243-247 | every tag extracted from the content is non-empty and lower-case, made of `[a-z0-9_]` |
| Text.ExtractNoHash | backend/src/models/Feedback.ts:243-247 | content without a `#` yields no tags |
| Text.ExtractSkipsPlainText | backend/src/models/Feedback.ts:243-247 | a prefix without `#` contributes no tag |
| Text.ExtractOne | backend/src/models/Feedback.ts:243-247 | `#word` followed by a non-word character yields the lower-cased word, then the tags of the rest |
| Text.ExtractTwo | backend/src/models/Feedback.ts:243-247 | a text ending in two space-separated tags yields exactly those two tags, in order |
| Text.ExtractExample | backend/tests/integration/feedbacks.test.ts:60-67 | the test's content yields exactly `parabens` then `excelente` |
| Text.CleanTag | backend/src/models/Feedback.ts:231 | lower-casing and stripping non-word characters gives a tag or the empty string, and leaves a tag unchanged |
| Text.NormalizeTag | backend/src/models/Hashtag.ts:28-36 | a stored tag is unchanged by the trim and lowercase setters |
| Text.NormalWordIsTag | backend/src/models/Feedback.ts:77-84 | a value that passed the setters and matches the word pattern is a lower-case tag and its own normal form |
| FeedbackModel.NewFeedback | backend/src/models/Feedback.ts:69-136 | a new document has trimmed content and normalised tags, no reactions, status `pendente`, categoria `outro` and prioridade `media` unless given, and both dates now |
| FeedbackModel.MergeHashtagsProperties | backend/src/models/Feedback.ts:157-170 | the merged tags have no duplicates and at most ten entries, all explicit or extracted; the first ten distinct explicit tags come first; nothing is lost when at most ten distinct tags exist |
| FeedbackModel.MergeHashtagsIdempotent | backend/src/models/Feedback.ts:157-170 | a second save leaves the tags as the first save left them |
| FeedbackModel.RemoverDuplicatas | backend/src/models/Feedback.ts:161-168 | the push-if-absent loop yields the first-seen de-duplication: no duplicates and the same elements |
| FeedbackModel.ShapeErrorIff | backend/src/models/Feedback.ts:173-184 | the shape checks pass iff the record has exactly the reference its kind needs |
| FeedbackModel.SaveResultProperties | backend/src/models/Feedback.ts:155-200 | a save succeeds iff the schema and the shape checks pass; it then stores the merged tags, clears the management fields of a P2P record, changes nothing else, and stamps the update time only on a modified stored document |
| FeedbackModel.SaveErrors | backend/src/models/Feedback.ts:173-184 | each of the four wrong shapes fails the save with its own error |
| FeedbackModel.FindReacao | backend/src/models/Feedback.ts:204 | the lookup finds the first reaction with that emoji, or reports that none has it |
| FeedbackModel.AddReactionEffect | backend/src/models/Feedback.ts:203-211 | an absent emoji is appended with count 1; a present one has only its count raised by 1 |
| FeedbackModel.DropOneEmoji | backend/src/models/Feedback.ts:218 | filtering out the only entry with an emoji removes exactly that entry |
| FeedbackModel.RemoveReactionEffect | backend/src/models/Feedback.ts:213-222 | an absent emoji changes nothing; a count of 1 removes the entry; a higher count drops by 1 |
| FeedbackModel.AddReactionValid | backend/src/models/Feedback.ts:96-109 | adding keeps the emojis unique and every count at least 1 |
| FeedbackModel.RemoveReactionValid | backend/src/models/Feedback.ts:213-222 | removing keeps the emojis unique and every count at least 1 |
| FeedbackModel.RemoveLastUse | backend/src/models/Feedback.ts:213-222 | removing the last use of an emoji deletes its entry and keeps the others in order |
| FeedbackModel.RemoveOneOfMany | backend/src/models/Feedback.ts:213-222 | removing one of several uses lowers that entry's count by one in place |
| FeedbackModel.AddThenRemove | backend/src/models/Feedback.ts:203-222 | adding a reaction and then removing it restores the list |
| FeedbackModel.HashtagsPopulares | backend/src/models/Feedback.ts:258-266 | the tag ranking over all feedback is the usage tally sorted by uses and cut to the limit, and a limit of 0 or less is refused |
| FeedbackModel.HashtagsTrending | backend/src/models/Feedback.ts:268-280 | the recent ranking is the usage tally of the feedback created at or after `dias` days before now, sorted by uses and cut to the limit; it never reports more uses than all feedback holds; a limit of 0 or less is refused |
| FeedbackModel.TrendingOverWholeHistory | backend/src/models/Feedback.ts:258-280 | when every feedback falls inside the window, the trending ranking is the all-time ranking |
| FeedbackModel.BuscarPorHashtag | backend/src/models/Feedback.ts:282-287 | exactly the feedback whose tags hold the lower-cased query tag |
| FeedbackModel.FeedbackDoc.ExactlyOneKind | backend/src/models/Feedback.ts:249-255 | a document is exactly one of forum feedback and P2P feedback |
| FeedbackModel.FeedbackDoc.ExtrairHashtagsDoTexto | backend/src/models/Feedback.ts:243-247 | the document's extracted tags are tags, none when the content has no `#` |
| FeedbackModel.FeedbackDoc.MergeTags | backend/src/models/Feedback.ts:157-170 | the hook's merge loop replaces only the tags, by the merged list, and marks the document modified when they changed |
| FeedbackModel.FeedbackDoc.ClearManagement | backend/src/models/Feedback.ts:187-192 | the P2P branch unsets categoria, prioridade, status and analisado_por and nothing else |
| FeedbackModel.FeedbackDoc.Finish | backend/src/models/Feedback.ts:185-199 | the last part of the save hook clears the management fields of a P2P feedback, stamps the update time when something changed, and leaves the document saved |
| FeedbackModel.FeedbackDoc.Save | backend/src/models/Feedback.ts:155-200 | a save returns what the save function gives for the document; on success the document is the saved record and no longer new |
| FeedbackModel.FeedbackDoc.AdicionarReacao | backend/src/models/Feedback.ts:203-211 | saves the document with the reaction added; on success the document is the saved record, not new and unmodified |
| FeedbackModel.FeedbackDoc.RemoverReacao | backend/src/models/Feedback.ts:213-222 | saves the document with the reaction removed, modified only when a positive count was found; on success the document is the saved record, not new and unmodified |
| FeedbackModel.FeedbackDoc.AlterarStatus | backend/src/models/Feedback.ts:224-228 | saves the document with the new status and the moderator's id; on success the document is the saved record, not new and unmodified |
| FeedbackModel.FeedbackDoc.AdicionarHashtag | backend/src/models/Feedback.ts:230-236 | appends the cleaned tag only when it is non-empty and absent, then saves; on success the document is the saved record, not new and unmodified |
| FeedbackModel.FeedbackDoc.RemoverHashtag | backend/src/models/Feedback.ts:238-241 | removes every copy of the lower-cased tag, then saves; on success the document is the saved record, not new and unmodified |
| FeedbackModel.AddedTagCappedAway | backend/src/models/Feedback.ts:170 | a tag added to a record that already has ten is cut away by the next save |
| FeedbackModel.RemovedContentTagReturns | backend/src/models/Feedback.ts:238-241 | a removed tag that is still written in the content comes back at the next save |
| HashtagModel.StoredTagAccepted | backend/src/models/Hashtag.ts:28-36 | a feedback tag is accepted by the statistics schema iff it has at most 50 characters |
| HashtagModel.NewStats | backend/src/models/Hashtag.ts:99-103 | a first use creates an active entry with every counter at 1 and both dates now, neither popular nor trending |
| HashtagModel.IncrementarUso | backend/src/models/Hashtag.ts:73-79 | each counter grows by exactly 1, the last use is now, and tag, first use and active flag stay; popular and trending are kept |
| HashtagModel.FindTag | backend/src/models/Hashtag.ts:95 | the lookup finds the entry with that tag, or reports that none has it |
| HashtagModel.RecordUseKeepsInvariant | backend/src/models/Hashtag.ts:90-107 | recording a use keeps tags unique and valid |
| HashtagModel.RecordUseCounts | backend/src/models/Hashtag.ts:92-104 | a use fails iff the lower-cased tag is new and invalid; otherwise only that tag's total grows, by 1 |
| HashtagModel.RecordAll | backend/src/models/Hashtag.ts:90-107 | the only failure the update can report is an invalid statistics tag |
| HashtagModel.Keys | backend/src/models/Hashtag.ts:92 | each tag is recorded under its lower-cased, trimmed form |
| HashtagModel.RecordAllCounts | backend/src/models/Hashtag.ts:90-107 | a complete update keeps the store invariant and adds to each key's total its number of occurrences, so a repeated tag counts twice and "Foo" and "foo" share one entry |
| HashtagModel.RecordAllSucceeds | backend/src/models/Hashtag.ts:90-107 | the update never fails when every tag is valid for the statistics schema |
| HashtagModel.RecordAllFailsOnLongTag | backend/src/models/Hashtag.ts:33 | a tag longer than 50 characters makes the update fail |
| HashtagModel.RecordAllKeepsInactive | backend/src/models/Hashtag.ts:73-79 | recording uses never reactivates an inactive tag |
| HashtagModel.ResetWeek | backend/src/models/Hashtag.ts:109-111 | every entry has its weekly counter at 0 and is otherwise unchanged |
| HashtagModel.ResetMonth | backend/src/models/Hashtag.ts:113-115 | every entry has its monthly counter at 0 and is otherwise unchanged |
| HashtagModel.ResetWeekProperties | backend/src/models/Hashtag.ts:109-111 | after the weekly reset nothing is trending, popularity is unchanged, a second reset changes nothing, and the invariant holds |
| HashtagModel.ResetMonthProperties | backend/src/models/Hashtag.ts:113-115 | the monthly reset zeroes only the monthly counter, is idempotent and keeps the invariant |
| HashtagModel.HashtagStore.AtualizarEstatisticas | backend/src/models/Hashtag.ts:90-107 | the loop leaves the store and the failure as the update function gives them, with the invariant kept |
| HashtagModel.HashtagStore.ResetarContadoresSemana | backend/src/services/hashtagService.ts:139-141 | the store becomes its weekly reset |
| HashtagModel.HashtagStore.ResetarContadoresMes | backend/src/services/hashtagService.ts:144-146 | the store becomes its monthly reset |
| Sorting.MongoLimit | backend/src/services/hashtagService.ts:11 | `.limit(n)` keeps a prefix: all for 0, otherwise at most the absolute value of n |
| Sorting.RankedQuery | backend/src/services/hashtagService.ts:9-12 | find, sort and limit give matching elements in order, every match left out ranks no higher than those kept, all matches for a limit of 0, and otherwise exactly the smaller of the match count and the absolute limit |
| HashtagService.SortKeysArePreorders | backend/src/services/hashtagService.ts:21 | both sort keys, total uses and (weekly uses, last use), are total preorders |
| HashtagService.ObterHashtagsPopulares | backend/src/services/hashtagService.ts:8-13 | only active entries, by non-increasing total, exactly the smaller of the active count and the limit for a non-zero limit, and no active entry left out has a higher total, and no entry twice when the store holds none twice |
| HashtagService.ObterHashtagsTrending | backend/src/services/hashtagService.ts:16-24 | only active entries with at least 3 weekly uses, by weekly uses then last use, exactly the smaller of their count and the absolute limit (all of them for 0), and no entry twice when the store holds none twice |
| HashtagService.BuscarHashtags | backend/src/services/hashtagService.ts:27-35 | only active entries whose tag contains the text, ignoring case, by non-increasing total, exactly the smaller of their count and the absolute limit (all of them for 0), and no entry twice when the store holds none twice |
| HashtagService.StripNonAlnum | backend/src/services/hashtagService.ts:115 | the stripped word holds only `[a-zA-Z0-9]` |
| HashtagService.Palavras | backend/src/services/hashtagService.ts:112-115 | every processed word is alphanumeric |
| HashtagService.Candidatos | backend/src/services/hashtagService.ts:120-126 | exactly the smaller of 2 and the number of active entries containing the word, by total, and none left out has a higher total |
| HashtagService.PushCandidatos | backend/src/services/hashtagService.ts:128-132 | the push loop yields the candidates that are new while there is room |
| HashtagService.ObterSugestoes | backend/src/services/hashtagService.ts:111-136 | the word loop yields the suggestions of the processed words |
| HashtagService.PushTagsProperties | backend/src/services/hashtagService.ts:128-132 | pushing keeps the list duplicate-free and within the limit, and only extends it with candidate tags |
| HashtagService.SugestoesProperties | backend/src/services/hashtagService.ts:111-136 | suggestions have no duplicates, at most the limit and two per word, and each is an active tag containing some processed word |
| HashtagService.PunctuationWordMatchesEverything | backend/src/services/hashtagService.ts:112-115 | the word `!!!` passes the length filter, becomes empty, and then matches every active tag |
| HashtagService.ObterEstatisticasGerais | backend/src/services/hashtagService.ts:71-108 | the active count is the number of active entries; the trending and popular counts are the active plus the inactive entries over each threshold; the weekly growth equals the trending count; and the top lists are the popular and trending queries with limit 10 |
| HashtagService.InactiveTrendingCounted | backend/src/services/hashtagService.ts:90 | an inactive tag with 3 weekly uses makes the trending count exceed the active trending entries, yet is absent from the top trending list |
| HashtagService.InactivePopularCounted | backend/src/services/hashtagService.ts:91 | an inactive tag with 10 uses makes the popular count exceed the active popular entries, yet is absent from the top popular list |
| HashtagService.Deactivate | backend/src/services/hashtagService.ts:153-159 | exactly the active entries last used before the limit become inactive |
| HashtagService.DeactivateProperties | backend/src/services/hashtagService.ts:149-162 | an entry stays active iff it was active and used since the limit, nothing else changes, the invariant holds, and a re-run changes nothing and counts zero |
| HashtagService.CountInativasZero | backend/src/services/hashtagService.ts:161 | with no idle active entry the modified count is zero |
| HashtagService.DesativarHashtagsInativas | backend/src/services/hashtagService.ts:149-162 | the store becomes its deactivation at now minus the days, and the result is the number of entries flipped |
| HashtagService.Janela | backend/src/services/hashtagService.ts:178-181 | exactly the feedback created since the start date that has tags |
| HashtagService.Novas | backend/src/services/hashtagService.ts:182-184 | exactly the entries first used since the start date |
| HashtagService.ObterAnalisePorPeriodo | backend/src/services/hashtagService.ts:165-209 | the total is the number of (feedback, tag) pairs in the window, the top list is the ten most used tags of the window, and the new count is the entries first used since the start (corrected; see ## Findings) |
| TagTally.TallyComplete | backend/src/services/hashtagService.ts:188-193 | the tally has one entry per distinct tag, with that tag's number of occurrences |
| TagTally.TallyTotal | backend/src/services/hashtagService.ts:200-201 | the tally's counts sum to the number of tags |
| TagTally.Ranking | backend/src/services/hashtagService.ts:195-198 | exactly the smaller of n and the number of distinct tags, by non-increasing uses, and no entry left out has more uses than one kept |
| TagTally.CountTagList | backend/src/services/hashtagService.ts:190-192 | the inner loop extends the count dictionary and its key order by one feedback's tags |
| TagTally.CountTags | backend/src/services/hashtagService.ts:188-193 | the nested loops count every tag of every feedback, keys in first-seen order (corrected; see ## Findings) |
| TagTally.PrototypeKeysMiscounted | backend/src/services/hashtagService.ts:191 | counting in a plain object turns `constructor` into a string and never counts `__proto__` |
| TagTally.PrototypeKeysCountedCorrected | backend/src/services/hashtagService.ts:188-193 | the corrected count gives `constructor` 1 and `__proto__` 2 |
| ForumModel.ConfigFrom | backend/src/models/Forum.ts:82-95 | each configuration flag defaults to true and is false only when given false |
| ForumModel.NewForum | backend/src/models/Forum.ts:32-106 | a new forum is active, has no feedback, trimmed fields and the default configuration unless given |
| ForumModel.AddMemberProperties | backend/src/models/Forum.ts:115-120 | adding makes the user a member, adds no one else, keeps the list duplicate-free, is idempotent, and is undone by removing a non-member |
| ForumModel.RemoveMemberProperties | backend/src/models/Forum.ts:122-125 | removing drops the user, keeps everyone else, and keeps the list duplicate-free |
| ForumModel.ForumDoc.Save | backend/src/models/Forum.ts:109-112 | a save checks the name, description and project bounds, then stamps the update time and changes nothing else |
| ForumModel.ForumDoc.AdicionarMembro | backend/src/models/Forum.ts:115-120 | saves the forum with the user added; the user is then a member and the creator is unchanged; on success the document is the saved record, on a failed save it keeps the change |
| ForumModel.ForumDoc.RemoverMembro | backend/src/models/Forum.ts:122-125 | saves the forum with the user removed, and the user is then no member; on success the document is the saved record, on a failed save it keeps the change |
| ForumModel.ForumDoc.AlterarStatus | backend/src/models/Forum.ts:127-130 | saves the forum with only its status changed; on success the document is the saved record, on a failed save it keeps the new status |
| ForumService.VerificarPermissoes | backend/src/services/forumService.ts:174-196 | the four management rights are admin or creator; viewing and posting are those, or membership, or an open forum |
| ForumService.PermissionsProperties | backend/src/services/forumService.ts:189-194 | every management right implies viewing; creators and admins have every right; a stranger may only view an open forum |
| ForumService.NewForumIsClosed | backend/src/models/Forum.ts:82-95 | a stranger can neither view nor post in a new forum with the default configuration |
| ForumService.ApplyUpdate | backend/src/services/forumService.ts:87-90 | the update replaces only the given fields and keeps id, creator, members, feedback and dates |
| ForumService.CriarForum | backend/src/services/forumService.ts:9-23 | a name in use or invalid fields fail with nothing stored; otherwise the new forum has the caller as creator and only member |
| ForumService.AtualizarForum | backend/src/services/forumService.ts:75-94 | it fails iff another forum holds the new name or the fields are invalid; a missing id gives no forum; otherwise only that forum changes, by the update |
| ForumService.UpdateKeepsNamesUnique | backend/src/services/forumService.ts:77-85 | an accepted update keeps forum names unique and the creator a member |
| ForumService.DeletarForum | backend/src/services/forumService.ts:96-98 | the forum is removed and returned if it existed |
| ForumService.AdicionarMembro | backend/src/services/forumService.ts:100-112 | an unknown forum is an error; otherwise the user is added and the forum saved |
| ForumService.RemoverMembro | backend/src/services/forumService.ts:114-134 | an unknown forum and the creator are errors; otherwise the user is removed and the forum saved; ids are compared as values, the corrected comparison (see ## Findings) |
| ForumService.AlterarStatus | backend/src/services/forumService.ts:136-148 | an unknown forum is an error; otherwise only the status and update time change |
| ForumService.BuscarForunsPorUsuario | backend/src/services/forumService.ts:150-161 | only stored forums are returned |
| ForumService.ForunsPorUsuarioAreMembership | backend/src/services/forumService.ts:150-156 | exactly the forums whose members include the user, each of which the user may view and post in |
| ForumService.ListarForuns | backend/src/services/forumService.ts:32-73 | a negative skip (a page below 1) gives no result, the error the driver raises; otherwise exactly the forums matching the filters, their count, skip as (page - 1) times limit, and total pages as the ceiling of total over limit |
| Paging.TotalPages | backend/src/services/forumService.ts:71 | the page count is the ceiling of total over a positive limit |
| Paging.Page | backend/src/services/forumService.ts:60-61 | a page exists iff the skip is not negative |
| Paging.PageStarts | backend/src/services/forumService.ts:42 | page p starts inside the results iff p is at most the page count, and every page before the last is full |
| Paging.PageProperties | backend/src/services/forumService.ts:42 | a page holds at most limit results, taken in order from the skip, non-empty iff within the page count |
| Paging.SkipNegative | backend/src/services/forumService.ts:42 | with a positive limit the skip is negative iff the page is below 1 |
| Base.DaysBefore | backend/src/services/hashtagService.ts:150-151 | going back a non-negative number of days never moves forward in time |
| Store.Database.NewId | backend/src/services/forumService.ts:16 | a fresh id is unused in every collection and nothing else changes |
| Store.Database.PutForum | backend/src/services/forumService.ts:87-92 | storing a valid, duplicate-free forum whose name no other forum has keeps the store invariant and changes only that forum |
| Store.Database.SetUsuarios | backend/src/services/feedbackService.ts:101-110 | replacing the users by a map that keeps the keys, e-mail uniqueness and well-formedness keeps the store invariant and changes nothing else |
| Store.Database.PutUsuario | backend/src/services/usuarioService.ts:85-88 | storing a normalised user whose e-mail no other user has keeps the store invariant and changes only that user |
| Store.Database.PutFeedback | backend/src/services/feedbackService.ts:249-257 | storing a well-formed feedback under its own id keeps the store invariant and changes only that feedback |
| FeedbackService.PodeDarFeedbackIsCanGiveFeedback | backend/src/services/feedbackService.ts:30-43 | the posting rule of forum feedback is the posting capability |
| FeedbackService.ForumDraft | backend/src/services/feedbackService.ts:45-55 | the document built has the forum kind, the forum and the author, and passes the shape checks |
| FeedbackService.P2PDraft | backend/src/services/feedbackService.ts:85-92 | the document built has the P2P kind, the recipient and the author, and passes the shape checks |
| FeedbackService.SaveNew | backend/src/services/feedbackService.ts:57-62 | a rejected document stores nothing; an accepted one is stored as saved and its tags are recorded; a statistics failure leaves the feedback stored |
| FeedbackService.LinkToForum | backend/src/services/feedbackService.ts:65-66 | the forum gets the feedback id appended and a new update time, and nothing else changes |
| FeedbackService.CriarFeedbackForum | backend/src/services/feedbackService.ts:17-69 | unknown forum, unknown user and no posting right fail in that order with nothing stored; a stored user with the posting right gets the save outcome: a rejected document fails validation, otherwise the saved record is returned, or the statistics error, which leaves the saved draft stored under the fresh id but not linked to the forum; success appends the id to the forum and records the tags |
| FeedbackService.PostingRuleCases | backend/src/services/feedbackService.ts:30-43 | on an open forum every user may post; on a members-only forum exactly the members, the creator and the admins may |
| FeedbackService.SavedTagsCountedOnce | backend/src/services/feedbackService.ts:57-62 | a saved forum feedback's tags are distinct, so the update adds exactly one use to each of them and none to other tags |
| FeedbackService.LinkUsers | backend/src/services/feedbackService.ts:101-110 | the recipient gets the id in feedbacksIn, the author (if stored) in feedbacksOut, and no other user or field changes |
| FeedbackService.LinkUsersKeepsInvariants | backend/src/services/feedbackService.ts:101-110 | linking changes no user key, e-mail or achievement, so the user invariants hold |
| FeedbackService.CriarFeedbackP2P | backend/src/services/feedbackService.ts:72-113 | unknown recipient then self-feedback fail with nothing stored; a stored recipient other than the sender gets the save outcome: a rejected document fails validation, otherwise the saved record is returned, or the statistics error, which leaves the saved draft stored under the fresh id with no user linked; success links both users; ids are compared as values, the corrected comparison (see ## Findings) |
| FeedbackService.FeedbackMatchesProperties | backend/src/services/feedbackService.ts:136-155 | no filter admits everything, the date range is inclusive at both ends, and dropping the range never excludes a match |
| FeedbackService.ListarFeedbacks | backend/src/services/feedbackService.ts:126-176 | a negative skip gives no result; otherwise exactly the feedback matching the supplied filters, their count, the skip and the total pages |
| FeedbackService.ApplyUpdate | backend/src/services/feedbackService.ts:198 | an update writes only content, categoria, prioridade, status and privacy, and neither re-extracts tags nor stamps the time |
| FeedbackService.AtualizarFeedback | backend/src/services/feedbackService.ts:179-207 | not found, unknown user and neither author nor admin fail in that order; it succeeds iff permitted and valid, and then stores the updated record |
| FeedbackService.AuthorSetsStatusByUpdate | backend/src/services/feedbackService.ts:191-198 | a non-admin author may set the status through the update |
| FeedbackService.UpdateDoesNotExtract | backend/src/services/feedbackService.ts:198 | new content in an update does not change the tags |
| FeedbackService.DeletarFeedback | backend/src/services/feedbackService.ts:210-246 | not found, unknown user and neither author nor admin fail in that order; success pulls the id from the forum or from both users and deletes the record |
| FeedbackService.PullFromForum | backend/src/services/feedbackService.ts:229-234 | the forum no longer lists the id and no other forum or field changes |
| FeedbackService.PullFromUsers | backend/src/services/feedbackService.ts:236-243 | for P2P feedback the recipient and author no longer list the id; no other user or field changes |
| FeedbackService.P2PBackReferencesRoundTrip | backend/src/services/feedbackService.ts:236-243 | deleting a P2P feedback undoes exactly the links its creation added |
| FeedbackService.AdicionarReacao | backend/src/services/feedbackService.ts:249-257 | an unknown feedback is an error; otherwise the record is saved with the reaction added |
| FeedbackService.RemoverReacao | backend/src/services/feedbackService.ts:260-268 | an unknown feedback is an error; otherwise the record is saved with the reaction removed |
| FeedbackService.AlterarStatus | backend/src/services/feedbackService.ts:271-288 | not found, P2P and non-admin fail in that order; otherwise the result is the save of the record with only status and moderator changed, marked modified when either differs, and success stores it |
| FeedbackService.LongTagStoredButNotRecorded | backend/src/services/feedbackService.ts:57-62 | a stored tag over 50 characters makes the statistics update fail after the feedback was saved |
| UsuarioModel.PasswordMatchesIff | backend/src/services/usuarioService.ts:38 | a stored hash accepts exactly its own password |
| UsuarioModel.SuperAdminIsAdmin | backend/src/models/Usuario.ts:92-98 | admin means role admin or super_admin, and a super admin is an admin |
| UsuarioModel.DefaultConquistas | backend/src/models/Usuario.ts:56-69 | the intended default is three slots, all false |
| UsuarioModel.NormalizeEmail | backend/src/models/Usuario.ts:35 | the stored e-mail is lower-case and as long as the input |
| UsuarioModel.EmailValidIff | backend/src/models/Usuario.ts:32 | the matcher accepts exactly the addresses the e-mail pattern describes |
| UsuarioModel.NewUsuario | backend/src/models/Usuario.ts:21-89 | a new user has trimmed name, lower-case e-mail, role `usuario` unless given, xp 0, three false slots (corrected; see ## Findings) and no feedback |
| UsuarioModel.SetConquista | backend/src/services/usuarioService.ts:128-140 | setting a slot changes only that slot |
| UsuarioModel.DefaultConquistasAsWritten | backend/src/models/Usuario.ts:56-69 | as declared, a new user's achievement array is empty |
| UsuarioModel.SetSlotAsWritten | backend/src/services/usuarioService.ts:133-136 | setting a slot past the end pads the gap with null |
| UsuarioModel.ConquistasAsWrittenDiffer | backend/src/models/Usuario.ts:56-69 | as declared there are no default slots, and earning the second achievement leaves a null first slot and no third |
| UsuarioModel.ConquistasCorrected | backend/src/models/Usuario.ts:56-69 | with three default slots, setting one keeps three slots and changes only that one |
| UsuarioService.BuscarPorEmail | backend/src/services/usuarioService.ts:65-67 | finds the stored user with the lower-cased e-mail, if any |
| UsuarioService.EmailLookupUnique | backend/src/models/Usuario.ts:34 | with unique e-mails, at most one user has a given e-mail |
| UsuarioService.CriarUsuario | backend/src/services/usuarioService.ts:9-26 | an e-mail in use, then an invalid name or e-mail, fail with nothing stored; otherwise the new user, with the hashed password, is stored under a fresh id |
| UsuarioService.Login | backend/src/services/usuarioService.ts:28-63 | an unknown e-mail and a wrong password give the same error; a missing secret is its own error; success signs the id, e-mail and role for seven days |
| UsuarioService.LoginAfterRegistration | backend/src/services/usuarioService.ts:32-41 | the registered password logs in, and a wrong password fails exactly like an unknown e-mail |
| UsuarioService.AutenticarUsuario | backend/src/services/usuarioService.ts:28-63 | logging in looks the user up by e-mail and then applies the login rule |
| UsuarioService.ApplyUpdate | backend/src/services/usuarioService.ts:85-88 | an update keeps id, password, achievements, feedback lists and creation date |
| UsuarioService.AtualizarUsuario | backend/src/services/usuarioService.ts:73-89 | an e-mail held by another user or invalid fields fail; a missing id gives no user; otherwise only that user changes, by the update |
| UsuarioService.OwnEmailIsFree | backend/src/services/usuarioService.ts:75-83 | keeping one's own e-mail is never reported as taken |
| UsuarioService.ListarUsuarios | backend/src/services/usuarioService.ts:91-114 | a negative skip gives no result; otherwise every user, their count, the skip and the total pages |
| UsuarioService.DeletarUsuario | backend/src/services/usuarioService.ts:116-118 | the user is removed and returned if it existed, and nothing else changes |
| UsuarioService.BuscarPorRole | backend/src/services/usuarioService.ts:142-144 | exactly the users with that role |
| UsuarioService.AdminsByRole | backend/src/models/Usuario.ts:92-94 | the admins are the users with role admin together with those with role super_admin |
| UsuarioService.IncXp | backend/src/services/usuarioService.ts:120-126 | only xp changes |
| UsuarioService.IncXpProperties | backend/src/services/usuarioService.ts:120-126 | increments add up, 0 changes nothing, the change is exactly the amount, and a large negative amount makes xp negative |
| UsuarioService.AtualizarXP | backend/src/services/usuarioService.ts:120-126 | a stored user's xp grows by the amount; an unknown id gives no user and changes nothing |
| UsuarioService.AtualizarConquista | backend/src/services/usuarioService.ts:128-140 | an index outside 0 to 2 is an error; an unknown id gives no user; otherwise only that slot changes (corrected; see ## Findings) |
| Auth.ReplaceFirstProperties | backend/src/middleware/auth.ts:37 | replacing a pattern that is absent changes nothing, and a leading one is replaced |
| Auth.TokenOf | backend/src/middleware/auth.ts:37 | the token is the header without its leading "Bearer " |
| Auth.BearerRoundTrip | backend/src/middleware/auth.ts:29-37 | "Bearer " followed by a token passes the prefix check and yields that token |
| Auth.FailureStatus | backend/src/middleware/auth.ts:82-103 | a missing secret and an unexpected error answer 500, every other failure 401 |
| Auth.Authenticate | backend/src/middleware/auth.ts:16-105 | missing or empty header, wrong prefix, blank token and missing secret are rejected in that order; a user is set iff the token verifies to a stored user |
| Auth.Authorize | backend/src/middleware/auth.ts:108-128 | no user is 401, a role outside the list is 403, otherwise pass |
| Auth.RoleGates | backend/src/middleware/auth.ts:131-134 | the admin gate admits admins and super admins, the super admin gate only super admins |
| Auth.OptionalAuth | backend/src/middleware/auth.ts:137-171 | never rejects; a user is set only with a Bearer header and a secret |
| Auth.OptionalAuthAgrees | backend/src/middleware/auth.ts:137-171 | the optional check finds the user the strict check accepts, and agrees with it on non-blank tokens |
| Auth.CheckResourceOwnership | backend/src/middleware/auth.ts:174-194 | admins pass, anyone else passes iff the id parameter is their own, and every refusal is 403 |
| QueryParams.ParseInt | backend/src/controllers/forumController.ts:88-89 | a number is only read from a string holding some hexadecimal digit |
| QueryParams.IntParam | backend/src/controllers/forumController.ts:88-89 | an absent parameter gives the default, a non-zero default never gives 0, and the result is the default or the parsed number |
| QueryParams.ParseDecimal | backend/src/controllers/forumController.ts:88-89 | a decimal numeral, with or without a minus sign, parses to its value |
| QueryParams.IntParamOfNumeral | backend/src/controllers/forumController.ts:88-89 | a non-zero numeral gives its own value |
| QueryParams.IntParamFallbacks | backend/src/controllers/forumController.ts:88-89 | "0", "abc" and "" give the default |
| QueryParams.UndefinedIsNaN | backend/src/controllers/forumController.ts:88-89 | an absent parameter, read as the text "undefined", parses to `NaN` |
| QueryParams.ParseNoDigitStart | backend/src/controllers/forumController.ts:88-89 | text that starts with a character that is no digit, sign or white space parses to `NaN` |
| QueryParams.ParseDigits | backend/src/controllers/forumController.ts:88-89 | a string of decimal digits parses to its value |
| QueryParams.ParseNegatedDigits | backend/src/controllers/forumController.ts:88-89 | a minus sign before a string of decimal digits parses to the negated value |
| QueryParams.FlagParam | backend/src/controllers/feedbackController.ts:114-115 | `'true'` is true, any other non-empty value false, and absent or empty no filter |
| ForumController.CriarForumGate | backend/src/controllers/forumController.ts:10-25 | no user is 401, a non-admin 403, and only admins pass |
| ForumController.CriarForumGateIsRequireAdmin | backend/src/controllers/forumController.ts:10-25 | the handler's gate is the admin gate |
| ForumController.ObterForumGate | backend/src/controllers/forumController.ts:43-84 | a missing forum is 404; a signed-in viewer needs the view right, else 403; an anonymous viewer gets 401 on a members-only forum and passes on an open one |
| ForumController.ObterForumMonotone | backend/src/controllers/forumController.ts:57-72 | whatever an anonymous viewer may see a signed-in one may too, and a default forum is closed to anonymous viewers |
| ForumController.MutationGate | backend/src/controllers/forumController.ts:113-141 | no user is 401, then no forum is 404, and the only other outcomes are pass and 403 |
| ForumController.MutationGateIsAdminOrCreator | backend/src/controllers/forumController.ts:134-135 | each action's capability gate passes iff the user is an admin or the creator, and otherwise answers 403 |
| ForumController.CatchStatus | backend/src/controllers/forumController.ts:150-338 | the catch block of the delete handler answers 500, those of the other changing handlers 400 |
| ForumController.ObterForumGateAsWritten | backend/src/controllers/forumController.ts:56-59 | as written, a signed-in viewer of a forum whose creator is no longer stored gets 500; otherwise the view gate decides |
| ForumController.MutationGateAsWritten | backend/src/controllers/forumController.ts:133-135 | as written, after the 401 and 404 checks a forum whose creator is no longer stored is answered with the handler's catch status; otherwise the change gate decides |
| ForumController.DeletedCreatorLocksForum | backend/src/services/forumService.ts:178-180 | as written, an admin can neither view nor change a forum whose creator was deleted, while the view and change rules admit them |
| ForumController.ListarForunsHandler | backend/src/controllers/forumController.ts:86-109 | the handler lists with page and limit parsed with defaults 1 and 10, and answers 500 exactly when the parsed page and limit give a negative skip |
| ForumController.NegativePageIsServerError | backend/src/controllers/forumController.ts:86-109 | `page=-n` for any positive n answers 500 |
| FeedbackController.ObterFeedbackGate | backend/src/controllers/feedbackController.ts:60-99 | a missing feedback is 404; public feedback always passes; private feedback passes for the author, the recipient or an admin, 403 for other signed-in viewers, and passes for anonymous ones |
| FeedbackController.PrivateShownToAnonymous | backend/src/controllers/feedbackController.ts:74-87 | a private feedback refused to a stranger is shown to an anonymous viewer |
| FeedbackController.ObterFeedbackGateAsWritten | backend/src/controllers/feedbackController.ts:60-99 | as written: 404 for a missing feedback, a pass for an anonymous viewer, 500 for a signed-in viewer when the author is no longer stored, otherwise a pass iff the feedback is public or the viewer is an admin |
| FeedbackController.OwnPrivateRefusedAsWritten | backend/src/controllers/feedbackController.ts:74-84 | as written, a non-admin author or recipient gets 403 on their own private feedback, which the id comparison admits |
| FeedbackController.MissingAuthorServerError | backend/src/controllers/feedbackController.ts:74-97 | as written, a deleted author makes every signed-in viewer get 500, while the id comparison passes a public feedback |
| FeedbackController.GatesAgree | backend/src/controllers/feedbackController.ts:60-99 | with the author stored, the two gates agree for anonymous viewers, admins, public feedback and strangers |
| FeedbackController.HandlerStatus | backend/src/controllers/feedbackController.ts:8-32 | handlers that need a user answer 401 without one; a service error is 400; success is 201 for creation and 200 otherwise |
| FeedbackController.NotFoundIsBadRequest | backend/src/controllers/feedbackController.ts:132-166 | a missing feedback reported by the service answers 400, never 404 |
| FeedbackController.FiltrosFrom | backend/src/controllers/feedbackController.ts:106-116 | the flags are parsed by the `'true'` rule, no date range is passed, and no query gives no filter |
| FeedbackController.ListarFeedbacksHandler | backend/src/controllers/feedbackController.ts:101-130 | the handler lists with defaults 1 and 10, answers 500 exactly when the parsed page and limit give a negative skip, and `isPrivado=true` returns only private feedback |
| FeedbackController.NegativePageIsServerError | backend/src/controllers/feedbackController.ts:101-130 | `page=-n` for any positive n answers 500 |
| FeedbackController.FlagOtherThanTrue | backend/src/controllers/feedbackController.ts:115 | any other non-empty `isPrivado` value returns only public feedback |
| UsuarioController.SemSenha | backend/src/controllers/usuarioController.ts:14 | the response keeps id, e-mail, role and xp |
| UsuarioController.SemSenhaDropsOnlySenha | backend/src/controllers/usuarioController.ts:14 | two users give the same response iff they differ at most in the password |
| UsuarioController.CriarUsuarioReply | backend/src/controllers/usuarioController.ts:8-27 | success is 201 with the user without password; an error is 400 and no user |
| UsuarioController.LoginReply | backend/src/controllers/usuarioController.ts:29-51 | success is 200 with the user without password; every error is 401 |
| UsuarioController.MissingSecretLooksLikeBadCredentials | backend/src/controllers/usuarioController.ts:45-49 | a correct login without a JWT secret answers like an unknown e-mail |
| UsuarioController.AtualizarGate | backend/src/controllers/usuarioController.ts:140-146 | a signed-in non-admin may update only their own id, else 403 |
| UsuarioController.AtualizarGateIsOwnership | backend/src/routes/usuarioRoutes.ts:50 | for a signed-in user the handler's guard is the ownership check of the route |
| UsuarioController.AtualizarUsuarioReply | backend/src/controllers/usuarioController.ts:148-171 | an error is 400, no user is 404, success is 200 with the user without password |
| UsuarioController.SelfPromotion | backend/src/controllers/usuarioController.ts:140-146 | a plain user passes both guards on their own id and may set their own role to super_admin |
| UsuarioController.DeletarGate | backend/src/controllers/usuarioController.ts:179-185 | a signed-in user deleting their own id is 400; everything else passes |
| UsuarioController.DeletarUsuarioHandler | backend/src/controllers/usuarioController.ts:174-207 | deleting one's own id is 400 and changes nothing; otherwise the user is removed, and the answer is 200 iff the id was a stored user, else 404 |
| UsuarioController.XpGate | backend/src/controllers/usuarioController.ts:214-220 | only a number not below 0 passes, anything else is 400 |
| UsuarioController.XpGateKeepsXpNonNegative | backend/src/controllers/usuarioController.ts:214-220 | through the handler, xp never decreases and stays at least 0 |
| ObjectIds.Rendered | backend/src/services/forumService.ts:124 | the rendered id is a valid id with no upper-case digit, and keeps the digits that were not upper case |
| ObjectIds.RenderedIdempotent | backend/src/services/forumService.ts:124 | rendering a rendered id gives it back |
| ObjectIds.UpperCaseSpelling | backend/src/middleware/forumValidation.ts:131-133 | an upper-case spelling passes `isMongoId`, differs from the rendered text and denotes the same id |
| ObjectIds.RemoverMembroAsWritten | backend/src/services/forumService.ts:114-128 | as written, refusal needs the typed text to equal the creator's rendered id; otherwise every member with the parameter's id is removed |
| ObjectIds.CreatorRemovedAsWritten | backend/src/services/forumService.ts:124-128 | a parameter spelling the creator's id in upper case is accepted, and the creator is removed |
| ObjectIds.CreatorRemovedExample | backend/src/services/forumService.ts:124-128 | a forum whose only member is its creator is left with no member |
| ObjectIds.RemoverMembroCorrected | backend/src/services/forumService.ts:114-128 | comparing ids, the removal is refused iff the parameter denotes the creator |
| ObjectIds.CreatorNeverRemoved | backend/src/services/forumService.ts:114-128 | comparing ids, the creator stays a member whatever spelling the parameter uses |
| ObjectIds.SelfFeedbackGuardAsWritten | backend/src/services/feedbackService.ts:80-82 | as written, the guard refuses only when the typed recipient text equals the sender's rendered id |
| ObjectIds.SelfFeedbackAcceptedAsWritten | backend/src/services/feedbackService.ts:80-88 | a recipient spelling the sender's own id in upper case passes the guard and denotes the sender |
| ObjectIds.SelfFeedbackExample | backend/src/services/feedbackService.ts:80-88 | `TypedId` passes the guard for the sender `StoredId` and denotes them |
| ObjectIds.SelfFeedbackGuardCorrected | backend/src/services/feedbackService.ts:80-82 | comparing ids, the guard refuses iff the recipient is the sender |
| ObjectIds.SelfFeedbackAlwaysRefused | backend/src/services/feedbackService.ts:80-82 | comparing ids, every spelling of the sender's own id is refused |

## Left out

- Concurrency: `Promise.all`, the non-atomic find-then-create in `atualizarEstatisticas` and a delete cascade that fails halfway are not modelled; each operation is one sequential step.
- Express wiring, rate limiting, CORS and JSON shaping are not modelled. Controller outcomes are status codes or gates. The middleware order of the routes is not modelled; lemmas relate the handler guards to the middleware.
- The express-validator chains are not modelled. The feedback schema bounds (content 15 to 500, emoji 1 to 10) come from the model.
- `populate`, aggregate pipelines and indexes are not modelled. Ids are plain numbers compared as values. The services, the middleware (`checkResourceOwnership`) and the controllers (the self-update and self-delete guards) compare id strings, and the model reads every such comparison as id equality; `ObjectIds` models the text spellings for the two service comparisons where a client-typed id meets a rendered one. An id parameter that is not an ObjectId is treated as an id that is just not stored. The private-feedback check of `obterFeedback` compares the text of populated documents instead, which `FeedbackController.ObterFeedbackGateAsWritten` models (see Findings).
- bcrypt and JWT are symbolic. A hash records its password, and verification is a function parameter. The token's expiry is recorded as a duration.
- Time is an integer in milliseconds. `setDate` day arithmetic is subtraction of whole days.
- Strings are sequences of Unicode scalar values, while JavaScript lengths count UTF-16 units. Lengths differ for characters outside the basic plane.
- `toLowerCase` is modelled on ASCII letters only.
- `buscarHashtags` and `obterSugestoes` treat the query text as a case-insensitive substring. Regular-expression metacharacters in it are not modelled.
- The contents and order of a listed page are not modelled. Lists give the matching set, the total, the skip and the page count; `Paging.Page` and its lemma give the slicing in general.
- Tie order among equal sort keys follows the store's order, not MongoDB's.
- The order of an object's integer-like keys in `Object.entries` is not modelled.
- A `limit` of `Infinity` is not modelled. Neither is `parseInt` precision beyond 2^53, nor a `Number` xp that is not an integer.
- `obterDetalheHashtag`, `buscarForunsPorProjeto`, `obterFeedbacksDoUsuario` and the `periodo` label are not modelled. They are lookups with no rule of their own.
- The pagination of `buscarPorHashtag` in the feedback service is not modelled; `FeedbackModel.BuscarPorHashtag` gives the matching set.
- The `obterEstatisticasHashtags` service call is not modelled separately. It combines the two feedback tag rankings with a count.
- `obterUsuario`, `obterPerfil` and the user-list handler are not modelled beyond `UsuarioController.SemSenha`.
- `obterForunsDoUsuario` in the forum controller is not modelled beyond the user's forum lookup.
- UsuarioService.CriarUsuario: `senha`'s minimum length of 6 is not checked, because the schema checks it on the bcrypt hash, which is always long enough.
- Store.Database.Valid: stored users are not required to satisfy the name and e-mail validators; the create and update paths check them. E-mail uniqueness and normalisation are part of the invariant.
- VerificarPermissoes: decides from the forum's creator id whether or not that user is still stored. As written, a forum populated with a deleted creator makes it throw; `ForumController.ObterForumGateAsWritten` and `ForumController.MutationGateAsWritten` model that throw at the handlers that call it (see Findings). `criarFeedbackForum` reads an unpopulated forum, where the stored id is never `null`.
- DTO fields the services pass on but no rule reads (`projeto` filters beyond equality, extra body fields) are not modelled.

## Findings

| source | as written | input that shows it | evidently intended | confidence | as-written member | corrected member |
|---|---|---|---|---|---|---|
| backend/src/models/Usuario.ts:56-69 | `conquistas` is declared as an array of three element schemas. Mongoose then gives it the default `[]`, and setting `conquistas.1` pads the array with `null`. | a new user, then `atualizarConquista(id, 1, true)` | three slots that default to false, and setting one changes only that slot | medium, not executed | UsuarioModel.ConquistasAsWrittenDiffer | UsuarioModel.ConquistasCorrected |
| backend/src/services/hashtagService.ts:188-193 | the period count uses a plain object `{}` as a dictionary, so inherited keys interfere | feedback tagged `constructor`, or tagged twice with `__proto__` | every tag counted by its number of uses | high, not executed | TagTally.PrototypeKeysMiscounted | TagTally.PrototypeKeysCountedCorrected |
| backend/src/services/forumService.ts:124 | the creator's rendered id `criadorId.toString()` is compared with the route parameter as typed, while `isMongoId` accepts upper-case digits and the removal compares ids | `DELETE /:id/membros/:usuarioId` on the forum routes with the creator's id in upper case | the creator is never removed, whatever the spelling | high, not executed | ObjectIds.CreatorRemovedAsWritten | ObjectIds.CreatorNeverRemoved |
| backend/src/services/feedbackService.ts:80 | the recipient text as typed is compared with the sender's rendered id `req.user._id.toString()`, while `isMongoId` accepts upper-case digits and the stored recipient is the id it denotes | a P2P feedback whose `destinatario_id` is the sender's own id in upper case | self-feedback is refused whatever the spelling | high, not executed | ObjectIds.SelfFeedbackAcceptedAsWritten | ObjectIds.SelfFeedbackAlwaysRefused |
| backend/src/controllers/feedbackController.ts:75-76 | `feedback.usuario_id.toString()` and `feedback.destinatario_id?.toString()` are taken on the user documents that `buscarPorId` populates, whose text is never an id; a deleted author is populated as `null`, whose `toString()` throws | `obterFeedback` on a private feedback, called by its non-admin author; `obterFeedback` by any signed-in user on a feedback whose author was deleted | the author and the recipient see their private feedback, and a deleted author does not turn the answer into 500 | high, not executed | FeedbackController.OwnPrivateRefusedAsWritten | FeedbackController.ObterFeedbackGate |
| backend/src/services/forumService.ts:178-180 | `typeof forum.criador === 'object'` also holds for the `null` that `populate` leaves once the creator is deleted, and `null._id` throws inside every handler that checks the rights | `obterForum` or `atualizarForum` called by a signed-in admin on a forum whose creator's user was deleted | the rights are decided from the stored creator id, and admins keep every right | medium, not executed | ForumController.DeletedCreatorLocksForum | ForumController.MutationGate |
