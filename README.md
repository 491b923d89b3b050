# Pego contest back end — a Dafny model

Pego is a short-video contest platform. Creators pay to enter a video in
a competition round. Viewers watch, like, comment and share. A
recommendation engine ranks the round's videos into a personalised feed.
When the round ends, an administrator closes it and the best-scored videos
become its winners. Users hold a credit balance and sign in with a
one-time code sent to their phone.

This project models the core of the back end and proves properties of it:

- **Records** (module `Models`). Users, videos, competitions, algorithm
  configurations, viewer preference profiles and score records, with the
  defaults a freshly built record gets.
- **Scoring** (modules `Scoring`, `Sorting`, `Personalization`,
  `Diversity`, `Feedback`, `Engine`). The five sub-scores and the weighted
  composite; the personalisation boosts; the stable descending sort; the
  greedy diversity filter; the two feedback updaters that change a video's
  counters and a viewer's profile. The class `Engine.RecommendationEngine`
  caches the active configuration in a field, as the original's engine
  object does.
- **Administration** (module `Admin`). Document serialisation, ending a
  competition and ranking its winners, moderating videos and users,
  adjusting credits, financial settings, and the per-user statistics.
- **Accounts** (module `Auth`). Unique usernames, phone cleaning and
  one-time codes, phone login, profile updates, and the credit ledger.

The database is `class Database` (module `Store`). It has one `seq` field
per collection, in insertion order. `find_one` is the first match,
`insert_one` appends and `update_one` changes the first match.

The model passes some things in as parameters rather than computing them:

- the clock, as `now: Timestamp`, in seconds;
- fresh uuids, as identifier parameters;
- the random six-digit code.

`log10` and `0.5 ** x` are the fields of a `Numerics` value, also passed
in. The predicate `Base.Lawful` states the laws that proofs may use:

- `log10(1) = 0`, and `log10` is monotone on positive reals;
- `0.5^0 = 1` and `0.5^1 = 0.5`;
- `0.5^x` is positive and antitone.

`Base.LawfulWitness` shows that the laws are consistent. Arithmetic is
exact real arithmetic.

Handled errors become `Result` values. HTTP exceptions become
`Err(status, detail)`, with the original's status codes and messages.

Two of the source's own behaviours are kept as written:

- `send_otp` stores the cleaned number, but `login_with_phone` checks the
  number as typed.
- A short watch skips a hashtag but leaves it preferred.

## Model

| member | source | states |
|---|---|---|
| Base.LawfulWitness | backend/algorithm.py:39 | the assumed laws of `log10` and `0.5 ** x` can all hold at once, so proofs that use them are not vacuous |
| Base.PyPrefix | backend/admin_routes.py:350 | Python's `s[:k]` is a prefix of `s` of length `min(k, len(s))` for k >= 0, and it drops the last `-k` elements for k < 0 |
| Base.LastN | backend/auth.py:219 | `phone[-4:]` is the suffix of length `min(4, len(phone))` |
| Base.FirstIndex | backend/algorithm.py:281 | `find_one` finds the first matching record; nothing is found exactly when no record matches |
| Base.Filter | backend/algorithm.py:193-199 | a query result holds exactly the stored records that match, each as often as it is stored, in stored order |
| Base.NatToStringRoundTrip | backend/admin_routes.py:459 | the decimal text of a count, as an f-string prints it, reads back as the same number |
| Base.NatToStringInjective | backend/auth.py:261 | different counters give different decimal texts |
| Models.NewCompetitionDefaults | backend/models.py:117-125 | a new competition's five signal weights sum to 1, and its 10 special winners are among its 1000 winners |
| Models.DefaultConfigWellFormed | backend/models.py:179-196 | the default configuration (half-life 7, recency 0.3, boosts 2.0 and 1.5, caps 2 and 3) has a positive half-life, boosts above 1, caps of at least 1, and is active |
| Models.NewPreferenceIsClean | backend/models.py:205-215 | a new profile has no hashtag both preferred and skipped, and no repeated entries |
| Scoring.ViewScore | backend/algorithm.py:67-76 | the view score is 0 for an unseen video and never above 100 |
| Scoring.ViewScoreRange | backend/algorithm.py:67-76 | the view score lies in [0, 100] |
| Scoring.ViewScoreMonotone | backend/algorithm.py:73-76 | more views never give a lower view score |
| Scoring.EngagementScore | backend/algorithm.py:46-65 | the engagement score is 0 for an unseen video and never above 100 |
| Scoring.EngagementScoreRange | backend/algorithm.py:46-65 | the engagement score lies in [0, 100] |
| Scoring.SharesWeighDouble | backend/algorithm.py:52 | one more share scores exactly like two more likes |
| Scoring.CompletionBonusStrict | backend/algorithm.py:62-63 | a completion rate of exactly 0.7 earns no bonus, and any rate above 0.7 scores at least as high |
| Scoring.RecencyScore | backend/algorithm.py:30-44 | the recency score never exceeds 100 |
| Scoring.RecencyRange | backend/algorithm.py:39-44 | with a non-negative recency factor the score lies in [0, 100] |
| Scoring.RecencyNonIncreasing | backend/algorithm.py:35-44 | for a positive half-life, a later evaluation time never gives a higher recency score |
| Scoring.RecencyOneHalfLife | backend/algorithm.py:39-42 | under the defaults, a video exactly one half-life old scores 15 |
| Scoring.RecencyFutureUpload | backend/algorithm.py:35-44 | the age is not clamped: a video dated in the future can reach the cap of 100 |
| Scoring.DurationBonus | backend/algorithm.py:88-93 | the bonus is 20 exactly for durations in [15, 60], 10 exactly for (60, 120], and 0 otherwise, including a missing duration |
| Scoring.QualityScore | backend/algorithm.py:78-95 | the quality score never exceeds 100 |
| Scoring.QualityCapInactive | backend/algorithm.py:82-95 | with rates in [0, 1] the cap never applies, and the score is completion*50 + replay*30 + bonus, at least 0 |
| Scoring.FollowerBoost | backend/algorithm.py:112-115 | no followers give no boost, and the boost is at most 20 |
| Scoring.AudienceBonus | backend/algorithm.py:117-121 | the 15-point bonus is given exactly when views > 0 and likes exceed 5% of views |
| Scoring.UserScore | backend/algorithm.py:97-123 | a creator with no record scores exactly 50, and no creator scores above 100 |
| Scoring.UserScoreRange | backend/algorithm.py:97-123 | every creator score lies in [50, 100] |
| Scoring.NewUserScoresAsUnknown | backend/algorithm.py:101-123 | a freshly created user scores the same as a missing one |
| Scoring.VerificationNeverLowers | backend/algorithm.py:109-110 | being verified never lowers the creator score |
| Scoring.CompetitionWeights | backend/algorithm.py:128-142 | with no competition the defaults 0.4/0.2/0.2/0.1/0.1 apply; a stored weight is used; a missing one falls back to its default |
| Scoring.CompositeScore | backend/algorithm.py:125-169 | the score record carries the five sub-scores of the video, a total capped at 100, rank 0 and version "1.0" |
| Scoring.WeightedTotalAtLeastCreatorTier | backend/algorithm.py:152-158 | with non-negative weights and parts, the weighted total is at least the 10% creator tier |
| Scoring.CompositeRange | backend/algorithm.py:152-168 | for a well-formed video and non-negative weights, the total lies in [5, 100] |
| Scoring.WeightedTotalPooled | backend/algorithm.py:154 | only the sum of the like, comment and share weights matters |
| Scoring.SocialWeightsPooled | backend/algorithm.py:138-158 | two competitions with the same view and completion weights and the same social sum give every video the same total |
| Scoring.NewCompetitionWeighsAsDefault | backend/algorithm.py:130-142 | a competition created with default weights scores like a missing competition |
| Scoring.NewVideoUnseen | backend/models.py:41-58 | a fresh video has no hashtags, no duration, rates of 0, and view, engagement and quality scores of 0 |
| Scoring.NewVideoScore | backend/algorithm.py:125-169 | a new video scored at upload time under the defaults, with no competition and no creator record, totals exactly 11 |
| Sorting.WithKeyConcat | backend/algorithm.py:234 | the items with a given key in `a + b` are those of `a`, then those of `b` |
| Sorting.InsertSorted | backend/algorithm.py:234 | inserting into a sorted sequence keeps it sorted |
| Sorting.InsertMultiset | backend/algorithm.py:234 | inserting adds exactly the one element |
| Sorting.InsertWithKey | backend/algorithm.py:234 | an inserted element comes after every earlier element with an equal key |
| Sorting.SortDescCorrect | backend/algorithm.py:234 | `sort(key, reverse=True)` returns a permutation, in non-increasing key order, that keeps the input order among equal keys (stable) |
| Sorting.SortDescSortedIdentity | backend/admin_routes.py:347 | sorting an already sorted sequence changes nothing |
| Sorting.SubsequenceSorted | backend/algorithm.py:234-237 | a subsequence of a sorted sequence is sorted |
| Sorting.SubsequenceMembers | backend/algorithm.py:237 | every element of a subsequence is in the original |
| Personalization.Personalize | backend/algorithm.py:207-225 | the loops compute `PersonalizedScore`: follow boost, then at most one hashtag boost, then at most one 0.5 penalty, all only when a profile is stored |
| Personalization.NoProfileNoChange | backend/algorithm.py:210 | without a stored profile the score is unchanged, even for a followed creator |
| Personalization.HashtagBoostOnce | backend/algorithm.py:216-219 | a second matching hashtag adds no further boost |
| Personalization.AllAdjustmentsCombine | backend/algorithm.py:212-225 | a followed creator with a preferred and a skipped hashtag gets total × follow boost × hashtag boost × 0.5 |
| Personalization.UnrelatedProfileNoChange | backend/algorithm.py:210-225 | a profile that neither follows the creator nor names any of the hashtags leaves the score unchanged |
| Diversity.AdmitKeepsCaps | backend/algorithm.py:250-269 | admitting a candidate that passes both checks keeps every creator and hashtag count within its cap |
| Diversity.SelectFacts | backend/algorithm.py:241-275 | the selection extends the feed with a subsequence of the candidates, respects both caps, and stops at `max(limit, 1)` because the length check follows the append |
| Diversity.VideosWithTagAtMostOccurrences | backend/algorithm.py:268-269 | the number of selected videos with a hashtag is at most that hashtag's counter |
| Diversity.HashtagAtCapRejects | backend/algorithm.py:255-262 | a candidate with any one hashtag at its cap is skipped |
| Diversity.CreatorAtCapRejects | backend/algorithm.py:251-252 | a candidate whose creator is at the cap is skipped |
| Diversity.HashtagAtCap | backend/algorithm.py:255-259 | the early-exit loop reports true exactly when some hashtag's counter is at the cap |
| Diversity.CountHashtags | backend/algorithm.py:268-269 | the counting loop adds each hashtag's number of occurrences to its counter |
| Diversity.ApplyDiversityRules | backend/algorithm.py:241-275 | the output is an order-preserving subsequence of the input, with no creator more than `max_same_user` times, no hashtag on more than `max_same_hashtag` videos, and at most `max(limit, 1)` entries |
| Diversity.OneCreatorCapOne | backend/algorithm.py:251-252 | with a cap of 1, three videos of the same creator yield only the first |
| Feedback.WatchRatio | backend/algorithm.py:298 | the watched fraction is clamped to at most 1 |
| Feedback.CountersMoveByOne | backend/algorithm.py:285-294 | a view, like, comment or share raises only its own counter, by exactly 1, and always stamps the time |
| Feedback.ReplayRateNeverChanges | backend/algorithm.py:297-306 | the replay branch is unreachable: the replay rate never changes, and only a watch changes the completion rate |
| Feedback.CompletionStaysInRange | backend/algorithm.py:297-306 | a watch sets the completion rate to the mean of the old rate and the clamped ratio, which stays in [0, 1] |
| Feedback.EmptyWatchOnlyTouchesTime | backend/algorithm.py:295-297 | a falsy watch value or a non-positive duration changes only the timestamp |
| Feedback.EngagementRateLags | backend/algorithm.py:308-316 | after a like, the engagement rate is the ratio of the counts before the increment, below the new counts' ratio |
| Feedback.ViewKeepsEngagementRate | backend/algorithm.py:309 | a view does not recompute the engagement rate |
| Feedback.UnknownKindOnlyTouchesTime | backend/algorithm.py:285-318 | any other interaction type changes only the timestamp |
| Feedback.LikeTagsFacts | backend/algorithm.py:340-346 | on duplicate-free lists, liking prefers every hashtag and un-skips it, only appends to preferred, only removes from skipped, and keeps both lists duplicate-free |
| Feedback.SkipTagsFacts | backend/algorithm.py:356-358 | a short watch only appends to skipped, ends with exactly the old entries plus the hashtags, and keeps the list duplicate-free |
| Feedback.PositiveInteractionLearns | backend/algorithm.py:338-350 | after a like, comment or share, every hashtag is preferred and not skipped, the creator is preferred, no duplicate appears, exclusivity is kept and the preferred duration is untouched |
| Feedback.ShortWatchSkips | backend/algorithm.py:354-358 | a watch below 30% skips every hashtag and leaves the preferred lists unchanged |
| Feedback.ShortWatchBreaksExclusive | backend/algorithm.py:354-358 | a short watch can leave a hashtag both preferred and skipped |
| Feedback.DuplicateSkipSurvivesLike | backend/algorithm.py:345-346 | `list.remove` takes out one copy only, so a hashtag skipped twice is still skipped after a like |
| Feedback.LongWatchLearnsDuration | backend/algorithm.py:359-364 | a longer watch sets the preferred duration to the video's duration when it was unset or 0, else to the mean, which stays within any bounds both satisfy |
| Feedback.NeutralInteractionOnlyTouchesTime | backend/algorithm.py:337-367 | any other interaction changes only the timestamp |
| Feedback.LearnKeepsDuplicateFree | backend/algorithm.py:337-367 | learning never introduces a repeated entry, and it keeps the profile's owner |
| Ledger.CreditedAppend | backend/auth.py:311-318 | a recorded transaction adds its amount to its user's ledger total only |
| Ledger.LedgerStep | backend/auth.py:299-318 | changing one user's balance by an amount while recording that amount keeps every balance equal to the user's ledger total |
| Ledger.LedgerNewAccount | backend/auth.py:220-226 | a new account with 0 credits and no transactions keeps the ledger balanced |
| Ledger.LedgerUntouched | backend/auth.py:212-215 | changes that keep every id and balance keep the ledger balanced |
| Store.UpsertPreference | backend/algorithm.py:370-374 | after `replace_one(..., upsert=True)` the viewer's profile is found and is the new one; other viewers' profiles stay where they were; a record is added only when the viewer had none; one profile per viewer stays so |
| Store.FindPreferenceAt | backend/algorithm.py:370 | the viewer's first profile is at k when k is theirs and no earlier one is |
| Engine.ChosenConfig | backend/algorithm.py:15-28 | the first active stored configuration is used; without one, the default (half-life 7, active, fresh id) is used |
| Engine.ConfigsAfter | backend/algorithm.py:15-28 | the store is unchanged when an active configuration exists; otherwise the default is inserted; either way the chosen configuration is then the first active one |
| Engine.FollowingIds | backend/algorithm.py:189-190 | the followed ids are exactly those of the viewer's follow records |
| Engine.ScoredFeed | backend/algorithm.py:202-231 | scoring keeps one entry per video, in order |
| Engine.ScoredFeedStep | backend/algorithm.py:203-231 | scoring one more video appends exactly its entry |
| Engine.StoredOrNew | backend/algorithm.py:331-335 | the profile learned from belongs to the viewer |
| Engine.RecommendationEngine.constructor | backend/algorithm.py:11-13 | a new engine has no cached configuration |
| Engine.RecommendationEngine.GetAlgorithmConfig | backend/algorithm.py:15-28 | a cached configuration is returned unchanged and never refreshed; otherwise the chosen one is cached, and the default is inserted when none is active; any half-life is accepted, and the returned one is non-zero exactly when the configuration in use was usable before |
| Engine.RecommendationEngine.CalculateRecencyScore | backend/algorithm.py:30-44 | returns `RecencyScore` under the cached configuration, filling the cache as `GetAlgorithmConfig` does; only the half-life of the configuration in use must be non-zero |
| Engine.RecommendationEngine.CalculateUserScore | backend/algorithm.py:97-123 | returns `UserScore` of the creator's first matching record, which lies in [50, 100] |
| Engine.RecommendationEngine.CalculateCompositeScore | backend/algorithm.py:125-169 | returns `CompositeScore` for the stored competition and creator under the cached configuration; only the half-life of the configuration in use must be non-zero |
| Engine.RecommendationEngine.ScoreOne | backend/algorithm.py:204-231 | one scored, personalised feed entry under the cached configuration, which must have a non-zero half-life |
| Engine.RecommendationEngine.ScoreVideos | backend/algorithm.py:202-231 | the scoring loop computes `ScoredFeed`; with no videos the half-life is never used |
| Engine.RecommendationEngine.GetPersonalizedFeed | backend/algorithm.py:171-239 | returns `PersonalizedFeed` of the store contents and fills the configuration cache; the half-life must be non-zero only when the active competition has a video to score |
| Engine.ActiveCompetition | backend/algorithm.py:176-178 | a competition is found only if it is stored and active, and none is found exactly when no stored competition is active |
| Engine.RoundVideos | backend/algorithm.py:193-199 | the round's videos are exactly the stored active, paid videos of that round |
| Engine.UnscoredFeedIsEmpty | backend/algorithm.py:176-199 | without an active competition, or with no eligible video in its round, the feed is empty under any configuration, a zero half-life included |
| Engine.PersonalizedFeedFacts | backend/algorithm.py:171-239 | the feed is in non-increasing score order, respects both diversity caps, has at most `max(limit, 1)` entries, and holds only round videos of the active competition |
| Engine.RoundFeedFacts | backend/algorithm.py:233-239 | sorting and diversity-filtering a round's scored entries gives a feed in non-increasing score order, within both caps and `max(limit, 1)` entries, of round videos only |
| Engine.LookupPreference | backend/algorithm.py:184-186 | a found profile belongs to the viewer, and none is found exactly when no profile does |
| Engine.FirstIndexAppendActive | backend/algorithm.py:24-27 | after the default is inserted into a store without an active configuration, it is the first active one |
| Engine.RecommendationEngine.UpdateVideoMetrics | backend/algorithm.py:277-318 | a missing video means nothing is written; otherwise exactly that video becomes `AfterInteraction` of itself |
| Engine.InteractedVideo | backend/algorithm.py:283-316 | the step-by-step field updates on one video compute exactly `AfterInteraction` |
| Engine.RecommendationEngine.LearnUserPreferences | backend/algorithm.py:320-374 | a missing video means nothing is written; otherwise the viewer's profile (or a new one) is learned from and upserted; duplicate-free profiles stay duplicate-free, and one profile per viewer stays so |
| Engine.LearnProfile | backend/algorithm.py:337-367 | the in-place list updates compute `Learn` |
| Engine.LikeHashtags | backend/algorithm.py:340-346 | the like loop computes `LikeTags` |
| Engine.SkipHashtags | backend/algorithm.py:356-358 | the short-watch loop computes `SkipTags` |
| Admin.Serialize | backend/admin_routes.py:86-105 | a list keeps its length, and a dict never gains keys |
| Admin.SerializeItems | backend/admin_routes.py:90-91 | a list is serialised element by element |
| Admin.SerializeEntries | backend/admin_routes.py:92-104 | the result has no `_id` key and no more entries than the input |
| Admin.LookupKey | backend/admin_routes.py:95 | a key is absent exactly when no entry has it |
| Admin.SerializeEntriesLookup | backend/admin_routes.py:92-104 | `_id` is gone; every other key keeps its first value, serialised |
| Admin.SerializeRemovesId | backend/admin_routes.py:86-105 | no dict at any depth of the result has an `_id` key |
| Admin.SerializeIdempotent | backend/admin_routes.py:86-105 | serialising twice is the same as serialising once |
| Admin.EntrantOf | backend/admin_routes.py:336-344 | a result row carries the video's id, creator and view count |
| Admin.Entrants | backend/admin_routes.py:334-344 | one row per round video |
| Admin.RankWinners | backend/admin_routes.py:349-359 | the loop builds the winners `RankedFrom` the ranked rows: the first `winner_count`, ranks from 1, special exactly when rank <= `special_winner_count` |
| Admin.WinnersAreTop | backend/admin_routes.py:346-359 | on sorted rows, winners are in score order, outscore every non-winner, are special exactly up to the special count, and number `min(winner_count, n)` |
| Admin.DefaultCompetitionWinners | backend/models.py:117-118 | with the default counts there are `min(1000, n)` winners, the special ones are exactly the first 10, and they form a prefix of the winners |
| Admin.ScoreEntrants | backend/admin_routes.py:325-344 | a fresh engine scores every round video under the chosen configuration, inserting the default one only if some video is scored; an empty round needs no usable half-life |
| Admin.EndCompetition | backend/admin_routes.py:314-383 | an unknown competition gives 404 "Competition not found" and writes nothing; otherwise that competition is stored ended now, with the ranked winners, and the reply lists the first 20 and the full count |
| Admin.VideoActionPatch | backend/admin_routes.py:432-443 | exactly the four video actions are accepted; anything else gives 400 "Invalid moderation action" |
| Admin.VideoActionEffect | backend/admin_routes.py:436-443 | each video action changes exactly one field, to the stated value |
| Admin.ModeratedVideos | backend/admin_routes.py:446-449 | `update_many` keeps the number of videos |
| Admin.ChangedVideos | backend/admin_routes.py:459-461 | the modified count never exceeds the number of videos |
| Admin.ModerateVideosAgain | backend/admin_routes.py:446-461 | repeating a moderation changes nothing and reports 0 modified |
| Admin.ChangedVideosMatched | backend/admin_routes.py:446-461 | a moderation that names no stored video reports 0 modified |
| Admin.ModerateVideos | backend/admin_routes.py:426-462 | an invalid action gives 400 and writes nothing; otherwise the named videos are patched and the reply reports the modified count in text and as a number |
| Admin.UserActionPatch | backend/admin_routes.py:510-521 | exactly the four user actions are accepted; anything else gives 400 |
| Admin.UserActionEffect | backend/admin_routes.py:514-521 | each user action sets exactly one flag, to the stated value |
| Admin.ModeratedUsers | backend/admin_routes.py:524-527 | `update_many` keeps the number of users |
| Admin.ChangedUsers | backend/admin_routes.py:537-539 | the modified count never exceeds the number of users |
| Admin.ModerateUsersAgain | backend/admin_routes.py:524-539 | repeating a moderation changes nothing and reports 0 modified |
| Admin.ModerateUsers | backend/admin_routes.py:504-540 | like video moderation, for users; it also keeps the ledger balanced and ids unique |
| Admin.AdjustmentCheck | backend/admin_routes.py:769-782 | checks in order: an amount of 0 gives 400, then a missing user gives 404, then a negative result gives 400; it passes exactly when none applies |
| Admin.AdjustUserCredits | backend/admin_routes.py:757-812 | a rejected adjustment writes nothing; otherwise one balance moves by the amount to a non-negative value, an `admin_adjustment` record is appended, and the ledger stays balanced |
| Admin.ReportedSettingsValid | backend/admin_routes.py:949-962 | the settings reported, stored or default, always split 100% between prize pool and fee |
| Admin.CurrentFinancialSettings | backend/admin_routes.py:949-962 | stored settings are reported as stored; with none stored the default reply (upload price 30, a 70/30 split) is valid |
| Admin.UpdateFinancialSettings | backend/admin_routes.py:964-998 | settings are accepted exactly when the two percentages sum to 100; a rejection gives 400 and writes nothing; stored settings stay valid |
| Admin.SpentToppedUpNet | backend/admin_routes.py:672-673 | total topped up minus total spent is the net of the amounts |
| Admin.Spent | backend/admin_routes.py:672 | total spent is 0 exactly when no transaction has a negative amount |
| Admin.ToppedUp | backend/admin_routes.py:673 | total topped up is 0 exactly when no transaction has a positive amount |
| Admin.ZeroAmountIgnored | backend/admin_routes.py:672-673 | a zero-amount transaction counts in neither total |
| Admin.NetConcat | backend/admin_routes.py:672-673 | the net of two runs of transactions is the sum of their nets |
| Admin.NetPermutation | backend/admin_routes.py:669-673 | the net does not depend on the order the transactions come in |
| Admin.UserTransactions | backend/admin_routes.py:669 | the query returns only the user's own transactions |
| Admin.UserTransactionsNet | backend/admin_routes.py:669-673 | the net of a user's transactions is their ledger total |
| Admin.RecentTransactions | backend/admin_routes.py:669 | exactly `min(50, n)` of the user's n transactions are read: each stored row at most once, newest first, and none left out is newer than one kept |
| Admin.NewestFirst | backend/admin_routes.py:669 | the first k of a user's transactions sorted newest first are the user's, drawn from the stored ones, in time order, and no row left out is newer than a kept one |
| Admin.TotalViews | backend/admin_routes.py:674 | the user's total views are at least those of each of their videos, and 0 when they have none |
| Admin.TotalLikes | backend/admin_routes.py:675 | the user's total likes are at least those of each of their videos, and 0 when they have none |
| Admin.VideoCount | backend/admin_routes.py:680 | the user's video count is at most the number of videos, and 0 exactly when none is theirs |
| Admin.DroppedNotNewer | backend/admin_routes.py:669 | in a newest-first list, no row after position k is newer than one before it |
| Admin.UserDetailStats | backend/admin_routes.py:654-689 | a missing user gives 404 "User not found"; otherwise the stats report the stored balance |
| Admin.StatsMatchBalance | backend/admin_routes.py:669-685 | for a balanced ledger and a user with at most 50 transactions, topped up minus spent equals the current balance |
| Auth.Lower | backend/auth.py:248 | upper-case letters map to lower case, and everything else is unchanged |
| Auth.KeepAlnumLower | backend/auth.py:248 | only lower-case letters and digits remain |
| Auth.KeepClean | backend/auth.py:248 | cleaning a clean name changes nothing |
| Auth.CleanBase | backend/auth.py:248-250 | the base is never empty, and is "user" when nothing alphanumeric remains |
| Auth.CleanBaseIdempotent | backend/auth.py:248-250 | cleaning a cleaned base changes nothing |
| Auth.CandidateInjective | backend/auth.py:254-261 | the names tried are pairwise distinct |
| Auth.CandidatesCount | backend/auth.py:254-261 | the first k candidates are k different names |
| Auth.Usernames | backend/auth.py:257 | the taken names are exactly the stored usernames, no more of them than users |
| Auth.TakenBound | backend/auth.py:256-261 | k taken candidates need at least k users, so the loop ends |
| Auth.AuthManager.GenerateUniqueUsername | backend/auth.py:245-263 | the result is free, and it is the base + k for the smallest k whose candidate is free (k = 0 giving the base itself) |
| Auth.Strip | backend/auth.py:153 | `replace(c, '')` never lengthens the text |
| Auth.WithoutSeparators | backend/auth.py:153 | the result has no `+`, `-` or space |
| Auth.StripThree | backend/auth.py:153 | the three replacements remove exactly the separators, keeping all else in order |
| Auth.CleanPhoneSeparators | backend/auth.py:153 | a cleaned number has no separator |
| Auth.WithoutSeparatorsShrinks | backend/auth.py:153 | a number with a separator gets strictly shorter |
| Auth.CleanPhoneFixpoint | backend/auth.py:153 | cleaning leaves a number unchanged exactly when it has no separator, and it is idempotent |
| Auth.ValidOtp | backend/auth.py:180-185 | a record is found only if its phone and code match, it is unused and unexpired; none is found exactly when no record qualifies |
| Auth.Consume | backend/auth.py:191-194 | marking a record used keeps the number of records |
| Auth.ConsumeMarksFound | backend/auth.py:191-194 | with unique ids, exactly the found record becomes used |
| Auth.OtpSingleUse | backend/auth.py:177-196 | a consumed record never verifies again, and a code with no duplicate never verifies twice |
| Auth.RawPhoneNeverVerifies | backend/auth.py:153-201 | a code sent to a number typed with a separator never verifies against the number as typed |
| Auth.CleanPhoneVerifies | backend/auth.py:150-185 | a number without separators verifies right after sending, finding the new record |
| Auth.AuthManager.SendOtp | backend/auth.py:150-175 | stores one unused record for the cleaned number, expiring 300 s after issue, and replies with the cleaned number and the code |
| Auth.AuthManager.VerifyOtp | backend/auth.py:177-196 | succeeds exactly when a valid record exists, consuming it; on failure nothing is written |
| Auth.AuthManager.LoginWithPhone | backend/auth.py:198-235 | a failed code gives 400 "Invalid or expired OTP" and writes nothing; a known number returns the stored user and touches `last_active`; otherwise a new user with 0 credits and a first-free username from "user" + the last 4 characters is created; store invariants are kept |
| Auth.AuthManager.TouchUser | backend/auth.py:212-215 | only the user's `last_active` changes, set to now; the store invariants are kept |
| Auth.AuthManager.RegisterPhoneUser | backend/auth.py:218-226 | a new user with 0 credits, the phone, the display name from the last 4 characters and the first free "user" + last-4 username is appended; the store invariants are kept for a fresh id |
| Auth.AuthManager.UpdateUserProfile | backend/auth.py:265-292 | a username held by another user gives 400 "Username already exists" and writes nothing; otherwise the user's fields are set and the stored record returned; store invariants are kept |
| Auth.AuthManager.AddCredits | backend/auth.py:295-322 | a missing user, or an amount of 0, gives 404 and writes nothing; otherwise the balance moves by the amount, a +amount record is appended, the new balance is returned, and the ledger stays balanced |
| Auth.AuthManager.SpendCredits | backend/auth.py:324-357 | a missing user gives 404; a balance below the amount gives 400 with both figures; otherwise the balance drops by the amount, a −amount "spend" record is appended, and old − amount (>= 0) is returned; the ledger stays balanced |
| Auth.AuthManager.CreditStep | backend/auth.py:299-318 | the `$inc` of the user's balance by the amount together with the appended record, which keeps the ledger balanced; spending uses the same step with −amount (auth.py:342-355) |
| Auth.ApplyProfile | backend/auth.py:280-288 | a profile update never changes the user's id or balance |

## Left out

- Administrator authentication, JWT tokens, Google OAuth and bcrypt password hashing: these are foreign libraries.
- The audit log (`log_admin_action`): it is write-only and nothing here reads it.
- The analytics, dashboard, listing, ban/unban, deletion and system-settings routes of `backend/admin_routes.py`; `backend/server.py` and the front end are not part of this model.
- Concurrency: each request is one atomic step, so read-modify-write races between requests are not modelled.
- IEEE floating point, and Python's `round`: arithmetic is exact on reals; `log10` and `0.5 ** x` are parameters constrained only by `Base.Lawful`.
- Auth.Lower: lower-casing and `isalnum` are modelled for ASCII only; Python's Unicode tables are not modelled.
- Scoring.RecencyScore: requires a non-zero half-life, because the original divides by it and raises ZeroDivisionError; the exception is not modelled.
- Engine.RecommendationEngine.UpdateVideoMetrics: requires a known duration for a truthy watch, because comparing `None > 0` raises TypeError in the original.
- Admin.EndCompetition: requires a non-zero half-life in the first active stored configuration when the competition exists and its round has a video to score, for the same ZeroDivisionError.
- Engine.RecommendationEngine.CalculateRecencyScore, Engine.RecommendationEngine.CalculateCompositeScore, Engine.RecommendationEngine.ScoreOne, Engine.RecommendationEngine.ScoreVideos and Engine.RecommendationEngine.GetPersonalizedFeed: the configuration in use (the cached one, else the first active stored one) must have a non-zero half-life whenever a video is scored, for the same ZeroDivisionError; the feed needs nothing when no video is scored.
- The `id` and `calculated_at` fields of `AlgorithmScore` are not modelled: nothing in the back end reads them, although they leave with each feed entry's `algorithm_data`.
- Sorting.SortDescCorrect: MongoDB's `sort("created_at", -1)` on transactions is modelled by the same stable sort, so ties keep stored order; MongoDB does not promise that.
- Auth.AuthManager.UpdateUserProfile: the profile update carries username, display name, bio and avatar only; the arbitrary keys of `profile_data` and the `updated_at` stamp are not modelled.
- Auth.AuthManager.UpdateUserProfile: for a missing user, `User(**None)` raises a TypeError; the model returns `Err(500, "Internal Server Error")` and its contract only says that an error is returned.
- The `CreditTransaction` and `PhoneOTP` records are not defined in `backend/models.py`; their fields are inferred from how they are used.
- Admin.ReportedSettingsValid: the default settings reply also carries `credits_per_thb: 1`, which the `FinancialSettings` record does not have; that key is not modelled.
- Auth.AuthManager.SendOtp: the random code generation and the SMS/print side effect are not modelled; the code is an argument with six digits.
