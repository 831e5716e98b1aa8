# Performance dashboard core, modelled in Dafny

This project models the business logic of a performance dashboard. The
dashboard shows metrics for a three-tier organisation: Managers own Team
Leads (TLs), and TLs own Line Contributors (LCs). The model covers four
pieces:

- **Status classifier** (`getStatus`). It maps an `overall` score to `Poor`,
  `Acceptable` or `Good` using the thresholds 80 and 100. Both comparisons
  are strict.
- **LC record builder** (`createLC`). It takes the first space-separated
  token of the identifier as `id` and `email`. The display `name` is the
  part before the first `@`, with only its first `.` turned into a space,
  every digit removed, and the first character upper-cased. `udPlusTt` is
  always recomputed as `uniqueDials + talktime`. Every other figure is
  copied through unchanged.
- **Hierarchy flattening** (`ALL_TLS`, `ALL_LCS`). These are in-order
  `flatMap`s over the Manager → TL → LC tree.
- **Dashboard pieces** (`AppContent`, `StatusBadge`, `OrgView`). These are
  the headline counts (total, active, defaulters, top performers and the
  Acceptable tile), the status badge, and the one-slot expand/collapse
  toggle of the organisation view.

Modules:

- `Types` (types.dfy) holds the record shapes. JavaScript numbers are
  `real` and strings are `seq<char>`.
- `Status` (status.dfy) holds the classifier.
- `Strings` (strings.dfy) holds the character-level operations of
  `createLC`. These are `split(c)[0]`, `replace('.', ' ')`,
  `replace(/[0-9]/g, '')` and capitalisation.
- `Normalizer` (normalizer.dfy) holds `createLC`.
- `NameSamples` (name_samples.dfy) evaluates the name building blocks on
  the literal identifiers of the worked examples.
- `Seqs` (seqs.dfy) holds the generic `flatMap` and `filter`.
- `Hierarchy` (hierarchy.dfy) holds the flattening.
- `Dashboard` (dashboard.dfy) holds the counts, the badge and the toggle.

Two behaviours of the code are kept as written:

- An identifier without `@` is not rejected. The code keeps the whole first
  token as the local part, and so does the model (`LocalPart`).
- An empty identifier gives an empty `id` and an empty `name`.

## Model

| member | source | states |
|---|---|---|
| `Status.GetStatus` | constants.ts:3-12 | The result is the band whose interval contains the score: Poor below 80, Acceptable on the closed interval [80, 100], Good above 100. Acceptable holds exactly when 80 <= overall <= 100. |
| `Status.LemmaStatusIsBand` | constants.ts:8-12 | For every band and score, the classifier returns that band if and only if the score lies in the band's interval. So Poor holds exactly when overall < 80, and Good exactly when overall > 100. |
| `Status.LemmaStatusMonotone` | constants.ts:8-12 | If x <= y, then the band of x ranks no higher than the band of y, in the order Poor < Acceptable < Good. |
| `Status.LemmaStatusBoundaries` | constants.ts:3-12 | 80 and 100 are both Acceptable. 79.40, 76.76, 41.17, 0 and -5 are Poor. 102.37 is Good. |
| `Strings.PrefixBefore` | constants.ts:29-30 | `split(c)[0]` is a prefix of the input and contains no `c`. It is either the whole input or is followed in the input by a `c`. `Normalizer.Identifier` (split on a space) and `Normalizer.LocalPart` (split on `@`) are its two uses. |
| `Strings.LemmaPrefixBeforeUnique` | constants.ts:29-30 | Those three facts determine `split(c)[0]` completely. |
| `Strings.LemmaPrefixBeforeIgnoresRest` | constants.ts:29 | Text after the first separator never changes `split(c)[0]`. |
| `Strings.ReplaceFirst` | constants.ts:30 | The result has the input's length. It differs from the input only at the position of the first occurrence of the pattern, if there is one, and holds the replacement there. |
| `Strings.LemmaReplaceFirstOccurrences` | constants.ts:30 | When the local part has a dot, the result has exactly one dot fewer and one space more. Without a dot, the counts are the same. Every other character keeps its count. |
| `Strings.LemmaReplaceFirstAt` | constants.ts:30 | Splitting at the first dot gives `a.b` → `a b`, and later dots in `b` are untouched. A string without the pattern is unchanged. |
| `Strings.RemoveDigits` | constants.ts:30 | The result contains no ASCII digit and is no longer than the input. |
| `Strings.LemmaRemoveDigitsOccurrences` | constants.ts:30 | Each character that is not a digit occurs as often after digit removal as before. |
| `Strings.LemmaRemoveDigitsAppend` | constants.ts:30 | Digit removal works piecewise over concatenation, so the kept characters stay in their original order. |
| `Strings.LemmaRemoveDigitsNone` | constants.ts:30 | A string without digits is left as it is. |
| `Strings.ToUpper` | constants.ts:37 | An ASCII lower-case letter becomes the matching capital. Every other character is unchanged. |
| `Strings.Capitalize` | constants.ts:37 | The result has the input's length. Its first character is `ToUpper` of the input's first character, so it is never a lower-case letter. Every later character is unchanged. The empty string stays empty. |
| `Strings.LemmaCapitalizeOccurrences` | constants.ts:37 | Capitalising keeps the count of every character that is not a letter. |
| `Normalizer.LemmaDeriveNameProperties` | constants.ts:29-37 | `DeriveName` is the name step of `createLC` on the `LocalPart` (the text before the first `@`). The name contains no `@` and no digit. It is as long as the local part with the first dot replaced and the digits removed, and its first character is `ToUpper` of that string's first character. It has one `.` fewer than the local part if the local part has one, and otherwise as many. |
| `Normalizer.LemmaDeriveNameDotted` | constants.ts:29-37 | For an identifier `a.b@d`, where `a` has no dot, the name is `a b` with the digits of both segments removed and the first letter capitalised. Further dots in `b` survive. |
| `Normalizer.LemmaDeriveNameUndotted` | constants.ts:29-37 | For an identifier `a@d`, where `a` has no dot, the name is `a` with its digits removed and its first letter capitalised. |
| `Normalizer.LemmaDeriveNameExampleDotted` | constants.ts:29-37 | `bipin.jaiswal@herovired.com` is named `Bipin jaiswal`. |
| `Normalizer.LemmaDeriveNameExampleDigit` | constants.ts:29-37 | `vaibhav.sharma1@herovired.com` is named `Vaibhav sharma`. |
| `Normalizer.LemmaDeriveNameExampleUndotted` | constants.ts:29-37 | `suraj@herovired.com` is named `Suraj`. |
| `Normalizer.LemmaDeriveNameExampleFirstDotOnly` | constants.ts:29-37 | `ravi.k.rao@x.com` is named `Ravi k.rao`: only the first dot becomes a space. |
| `Normalizer.LemmaDeriveNameExampleDigitFirst` | constants.ts:29-37 | `ravi2.k@x.com` is named `Ravi k`: digits go from the first segment too. |
| `Normalizer.CreateLC` | constants.ts:15-54 | `id` and `email` are the same string, the `Identifier`: the prefix of the identifier before its first space, or all of it. `name` is `DeriveName` of that token. `udPlusTt` always equals `uniqueDials + talktime`, and no parameter can supply it. `tlName`, `managerName`, attendance and every other figure are the arguments, unchanged. |
| `Normalizer.LemmaCreateLCIgnoresAnnotation` | constants.ts:29-38 | The whole record is the same whatever text follows the first space. |
| `Normalizer.LemmaCreateLCExample` | constants.ts:65 | The first dataset record has `id` `bipin.jaiswal@herovired.com` and name `Bipin jaiswal`. Its 69 unique dials and 54.52 minutes of talk time give `udPlusTt` 123.52, and its overall score 41.17 is Poor. |
| `Seqs.LemmaFlatMapAppend` | constants.ts:229-230 | `FlatMap` (JavaScript's `flatMap`) distributes over concatenation of its input. |
| `Seqs.LemmaFlatMapLength` | constants.ts:229-230 | The output length is the sum of the child-list lengths. |
| `Seqs.LemmaFlatMapMembership` | constants.ts:229-230 | An element is in the output exactly when it is in the child list of some input element. |
| `Seqs.LemmaFlatMapSplit` | constants.ts:229-230 | The children of the i-th input form one contiguous block. That block comes after the children of all earlier inputs and before those of all later ones. |
| `Seqs.Filter` | App.tsx:142-144 | The result is no longer than the input. It holds exactly the input elements that satisfy the predicate. It is as long as the input exactly when every element satisfies the predicate. |
| `Seqs.LemmaFilterAppend` | App.tsx:142-144 | Filtering a concatenation concatenates the filtered parts, so kept elements keep their input order. |
| `Seqs.LemmaFilterMultiset` | App.tsx:142-144 | Each element satisfying the predicate is kept as many times as it occurs in the input, and no other element is kept. So the `.length` of a filter counts occurrences, duplicates included. |
| `Hierarchy.AllTLs` | constants.ts:229 | The length is the sum of the managers' TL counts. A TL is in `ALL_TLS` exactly when some manager owns it. |
| `Hierarchy.AllLCs` | constants.ts:230 | The length is the sum of the TLs' LC counts. An LC is in `ALL_LCS` exactly when some TL owns it. |
| `Hierarchy.LemmaAllTLsAppend` | constants.ts:229 | Flattening a concatenation of managers concatenates their TL lists. |
| `Hierarchy.LemmaAllLCsAppend` | constants.ts:230 | Flattening a concatenation of TLs concatenates their LC lists. |
| `Hierarchy.LemmaAllTLsOrder` | constants.ts:229 | Manager i's TLs appear as one block, in their own order, between the TLs of earlier and later managers. |
| `Hierarchy.LemmaAllLCsOrder` | constants.ts:230 | TL i's LCs appear as one block, in their own order, between the LCs of earlier and later TLs. |
| `Hierarchy.LemmaAllLCsByManager` | constants.ts:229-230 | Flattening in two stages gives the same list as concatenating each manager's LCs in turn. |
| `Hierarchy.LemmaWellFormedBackReferences` | constants.ts:229-230 | In a tree whose back-references match ownership, every flattened LC lies in a flattened TL whose name it carries. Its `managerName` also names a manager of the tree. |
| `Dashboard.LemmaDefaultersArePoor` | App.tsx:143 | Counting LCs with `overall < 80` (`IsDefaulter`) gives exactly the number of LCs the classifier calls Poor. |
| `Dashboard.LemmaGoodPerformersAreGood` | App.tsx:144 | Counting LCs with `overall > 100` (`IsGoodPerformer`) gives exactly the number of LCs the classifier calls Good. |
| `Dashboard.LemmaStatusPartition` | App.tsx:300 | The Poor, Acceptable and Good counts add up to the number of LCs, which is why `AcceptableTile` (total minus defaulters minus top performers) counts the Acceptable LCs. |
| `Dashboard.Summarize` | App.tsx:141-144 | `totalLCs` is the length of the LC list. `activeLCs` is `CountActive`, the number of LCs whose attendance is exactly "Present" or "Active" (`IsActive`). So it is at most `totalLCs`, equals it exactly when every LC is active, and is positive when any LC is. `defaulters` is the number of Poor LCs and `goodPerformers` the number of Good LCs. The Acceptable tile (`AcceptableTile`) is never negative and equals the number of Acceptable LCs. |
| `Dashboard.LemmaActiveCount` | App.tsx:142 | Filtering by `IsActive` keeps as many LCs as `CountActive` counts one by one. |
| `Dashboard.StatusBadge` | App.tsx:39-48 | The badge's status label is `getStatus(overall)`. Its colour is `BadgeColour` of that band: green for Good, yellow for Acceptable, red for Poor. |
| `Dashboard.LemmaBadgeColourMatchesBand` | App.tsx:41-47 | Two badges have the same colour exactly when their scores are in the same band. |
| `Dashboard.ToggleMgr` | App.tsx:55-59 | After a click on manager name n, n is the expanded name exactly when it was not before. No other manager name is expanded. |
| `Dashboard.LemmaAtMostOneExpanded` | App.tsx:55 | At most one manager name is expanded in any state. |
| `Dashboard.LemmaToggleTwice` | App.tsx:57-59 | Two clicks on manager name n restore the state when no name, or n, was expanded. |
| `Dashboard.LemmaToggleTwiceFromOther` | App.tsx:57-59 | When another manager name was expanded, two clicks on n leave no name expanded. The other name does not come back. |

## Left out

- Normalizer.CreateLC: `udPlusTt` is the exact sum `ud + tt` over the reals. The source rounds it to two decimals with `Number((ud + tt).toFixed(2))`, which is IEEE-754 decimal formatting and is not modelled.
- Strings.ToUpper: upper-cases ASCII `a`–`z` only. JavaScript's `toUpperCase` also maps non-ASCII letters, and some of them to several characters.
- Dashboard.ToggleMgr: managers are identified by name; managers that share a name expand together (App.tsx:86), and nothing makes manager names unique.
- Non-finite numbers: reals have no NaN or infinity. In the source, a NaN score fails both comparisons and so is classified Acceptable.
- Dashboard.StatusBadge: the badge text (`{overall}% ({status})`) is not modelled, because it formats a number. The colour classes are reduced to their colour family.
- The static demo dataset (constants.ts:58-226) is not transcribed. `Hierarchy.WellFormed` states the consistency it keeps between names and ownership.
- React rendering and presentation are not modelled: layout, `StatsCard`, `SidebarItem`, and tab, sidebar and modal visibility.
- The AI summary (`getQuickStats`, and the effect that calls it) and the chat types are left out. They are network calls to an external model.
- Live-sheet loading, `DataProvider`/`useData`, refresh and the `RawSheetRow` adapter are left out. They are I/O, and their parsing code is not part of this model.
- The dashboard reads the LC list from the data context. `Dashboard.Summarize` therefore takes that list as a parameter. For the static tree it is `Hierarchy.AllLCs(Hierarchy.AllTLs(managers))`.
