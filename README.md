# Castle: a Dafny model of the room-data extractor and the app's core logic

Castle is an iOS app (SwiftUI, Firestore) for a "memory palace" practice. The
palace has 72 room classes grouped into wings. A user creates instances of a
room and runs timed sessions in them. Three AI agents (the Engineer, the
Strategist and the Room Guide) answer in prose and may embed one JSON action,
which the app then applies. A Python script builds the room catalogue from
markdown specifications, and Firebase cloud functions create instances, seed the
catalogue and generate music tracks.

This project models, in Dafny:

- **The room-data extractor** (`scripts/extract_room_data.py`).
  - `parse_room_spec`: each regular expression it uses is a scanning function
    over `seq<char>`. The leftmost-match and backtracking outcomes of each
    pattern are worked out by hand and justified in the comments.
  - `update_rooms_data`: an imperative merge over the decoded wings, proved
    against functions on the JSON values.
- **The `RoomLiturgy` codec** and the other model types: `RoomInstance`,
  `RoomDefinition` with its `RoomLoader`, `RecurringBlock`, `Season` and
  `Session`.
- **The services**:
  - the Navigator's bounded history and room-number scanner;
  - the music player's track-index state machine;
  - the three agents' JSON extraction and action handlers.
- **The cloud-function helpers**: authorization, instance validation, seeding,
  the music prompt and the playlist update.
- **The integer and string logic inside the views**:
  - session timing and state;
  - the Strategist's grid and summary;
  - the season proposal and season detail;
  - the instance's music controls, the room sheets and the blueprint filters.

Modules follow the source files, one module per file. Shared text helpers are
in `Text` (text.dfy): Python's `strip`, Swift's `.whitespaces` trim, decimal
rendering, truncating division, substring search and ASCII case folding. The
JSON value type is in `Json` (json.dfy).

State the source changes in place is modelled as Dafny classes:

- the services;
- the session screen;
- the proposal sheet;
- the music-context editor;
- the blueprint screen;
- the room loader;
- the Firestore-backed cloud functions.

Their methods state the whole new state. Pure computed properties are functions,
and lemmas state what the source promises about them.

Network, AI and storage calls are replaced by parameters that carry their
outcome: the model's reply text, the id Firestore returns (or `None` when the
call throws), and the index of the first failing write. The same holds for the
clock and the calendar.

## Model

| member | source | states |
|---|---|---|
| Extractor.RoomNumber | scripts/extract_room_data.py:14-17 | present exactly when the file name contains `room_<digits>_` somewhere; the value is the digit run of the leftmost such occurrence |
| Extractor.NumberKeyFromName | scripts/extract_room_data.py:15-17 | the parsed record has `number` iff the file name matches, and then holds that digit run |
| Extractor.RestStart | scripts/extract_room_data.py:27-93 | the group of `\s*(.+)` fails exactly when only newlines follow the tag; otherwise it starts on a non-newline, after whitespace only |
| Extractor.LineField | scripts/extract_room_data.py:26-49 | a `**Label:**` field is present iff some tag occurrence matches `tag\s*(.+)`; its value is stripped and holds no newline |
| Extractor.LineFieldIsRestOfLine | scripts/extract_room_data.py:27-29 | when the first tag's line carries text, the field is the rest of that line after the tag, stripped |
| Extractor.SectionStart | scripts/extract_room_data.py:20-105 | the body starts just after the first blank line (`\n\n`) that follows the first occurrence of the heading, case-folded when the pattern ignores case; with no heading, or no blank line after it, there is no body |
| Extractor.Section | scripts/extract_room_data.py:62-105 | with a body start `a`, the body is the text from `a` to the first position after `a` where the lookahead succeeds, and there is none when the lookahead never succeeds; it is non-empty (the lazy `(.+?)` takes at least one character) |
| Extractor.SectionFrom | scripts/extract_room_data.py:62-105 | from a known body start `a`, the group runs to the first position after `a` where the lookahead succeeds, and there is no group when it never succeeds |
| Extractor.TrapRunsToEnd | scripts/extract_room_data.py:62-105 | with no `\n##` after the body start, the trap section (`\n##` or `\Z`) runs to the end of the text, while the sections needing a heading have no match |
| Extractor.Physics | scripts/extract_room_data.py:31-34 | `physics_description`, when present, is non-empty, stripped and holds no newline |
| Extractor.Equation | scripts/extract_room_data.py:36-39 | `equation`, when present, is stripped and holds no newline |
| Extractor.EquationDropsBackticks | scripts/extract_room_data.py:37-39 | an equation written between backticks on its line is stored without the backticks |
| Extractor.Quote | scripts/extract_room_data.py:51-54 | `evocative_quote`, when present, is stripped and holds no newline |
| Extractor.QuoteAfterHeading | scripts/extract_room_data.py:51-54 | a quote written as `> "q"` right after the blank line that follows the Evocative Why heading is stored as `q`, stripped, with its newlines turned into spaces |
| Extractor.Description | scripts/extract_room_data.py:56-59 | `evocative_description`, when present, is stripped and holds no newline |
| Extractor.DescriptionAfterHeading | scripts/extract_room_data.py:56-59 | after the Evocative Why heading, the paragraph between the first `> "q"` quote's blank line and the next heading is stored, stripped, with its newlines turned into spaces |
| Extractor.BulletAt | scripts/extract_room_data.py:65-77 | a bullet match ends after its start, and its name and description hold no newline |
| Extractor.Bullets | scripts/extract_room_data.py:64-81 | every bullet found in a section, in order of appearance, has a stripped name and description with no newline |
| Extractor.BulletsFromFirst | scripts/extract_room_data.py:65-70 | the items are the leftmost match's name and description, stripped, followed by the items found from where that match ends; with no match before the end there are none |
| Extractor.BulletsOfLines | scripts/extract_room_data.py:65-70 | lines `- **name**: description` of one-line stripped items give back exactly those items, in order |
| Extractor.ItemList | scripts/extract_room_data.py:61-83 | `constraints` or `altar` is absent exactly when the section is missing or holds no bullet; otherwise it is the list of the section's bullets, in order, as name and description objects |
| Extractor.ItemListOfLines | scripts/extract_room_data.py:61-71 | a section made of bullet lines of one-line stripped items gives exactly those items, in order |
| Extractor.StepAt | scripts/extract_room_data.py:98 | a step match ends after its start and its text holds no newline |
| Extractor.Steps | scripts/extract_room_data.py:97-99 | every step text is stripped and holds no newline |
| Extractor.StepsFromFirst | scripts/extract_room_data.py:97-99 | the steps are the leftmost match's text, stripped, followed by the steps found from where that match ends; with no match before the end there are none |
| Extractor.StepsOfLines | scripts/extract_room_data.py:97-99 | lines `**Step <n>:** text` give back their texts in order, whatever digits `<n>` holds (or none) |
| Extractor.PutSteps | scripts/extract_room_data.py:98-99 | adds `step_k`, `step_k+1`, … holding the step texts in order and changes no other key |
| Extractor.PutStepsKeepsNamed | scripts/extract_room_data.py:88-99 | adding the steps leaves `entry` and `exit` as they were |
| Extractor.LiturgyDictContents | scripts/extract_room_data.py:88-99 | the liturgy holds `entry` iff an entry line was found, `exit` likewise, and exactly `step_1..step_n` for the n step matches in order, whatever digit the label prints |
| Extractor.Liturgy | scripts/extract_room_data.py:85-102 | `liturgy`, when present, is a dictionary with at least one key |
| Extractor.Trap | scripts/extract_room_data.py:104-117 | `trap`, when present, is a dictionary with at least one key ; `TrapContents` states its keys and values |
| Extractor.TrapDict | scripts/extract_room_data.py:107-114 | the trap dictionary; `TrapDictContents` states every key and value |
| Extractor.TrapDictContents | scripts/extract_room_data.py:107-114 | the dictionary holds `leak` exactly when a leak line was found and `result` likewise, each holding its field, no other key, and is empty exactly when neither was found |
| Extractor.TrapContents | scripts/extract_room_data.py:104-117 | no `trap` without the section; with it, `trap` is present exactly when the section has a `**The Leak:**` or `**The Result:**` line, holding `leak` and `result` exactly when found, each the stripped rest of its line, and no other key |
| Extractor.Fields | scripts/extract_room_data.py:9-119 | the twelve keys in the script's order, each with its extractor's result |
| Extractor.CollectField | scripts/extract_room_data.py:16-117 | in a dictionary built from distinct keys, a key is present iff its value was found, with that value |
| Extractor.ParseRoomSpec | scripts/extract_room_data.py:9-119 | the record holds only the twelve known keys |
| Extractor.ParseRoomSpecField | scripts/extract_room_data.py:9-119 | each key is present exactly when its extractor found something, and then holds that value |
| Extractor.LineEnd | scripts/extract_room_data.py:28 | the end of the line `.` can match to: its ensures say no newline lies before it and a newline or the end of the text follows; `LineFieldIsRestOfLine` builds on it |
| Extractor.DigitsEnd | scripts/extract_room_data.py:98 | the end of the greedy `\d*` run: its ensures say every character before it is a digit and the one at it is not |
| Extractor.ColonSpaceEnd | scripts/extract_room_data.py:98 | the end of the greedy `[:\s]*` run: its ensures say every character before it is a colon or white space and the one at it is not |
| Extractor.FirstLineField | scripts/extract_room_data.py:27-29 | the position of the leftmost `tag\s*(.+)` match `re.search` takes; its ensures state it matches there and nowhere earlier, and that none means no match anywhere |
| Extractor.GroupStart | scripts/extract_room_data.py:27-29 | where the `(.+)` group of that leftmost match starts, present exactly when there is a match; `LineFieldIsRestOfLine` states the value |
| Extractor.RestOfLine | scripts/extract_room_data.py:28-29 | the `(.+)` group after `.strip()`: its ensures say it is stripped and holds no newline |
| Extractor.EquationFrom | scripts/extract_room_data.py:37-39 | the equation group of the leftmost tag occurrence that matches: non-empty and on one line; `EquationDropsBackticks` gives its value |
| Extractor.HeadingEnd | scripts/extract_room_data.py:52 | the end of the first occurrence of a heading, absent exactly when the heading does not occur |
| Extractor.SectionHeadingEnd | scripts/extract_room_data.py:21 | the end of the first heading occurrence under `re.IGNORECASE`: absent exactly when the folded heading does not occur, and otherwise the position `HeadingEndsAt` characterises |
| Extractor.BodyStart | scripts/extract_room_data.py:21 | just after the first blank line at or after the heading, none when there is no blank line |
| Extractor.FirstStop | scripts/extract_room_data.py:21 | the first position where the section's lookahead succeeds, with none before it; `FirstStopIsFirst` states both directions |
| Extractor.QuoteFrom | scripts/extract_room_data.py:52-54 | the `>\s*"(.+?)"` scan from a position; `QuoteAfterHeading` gives its value for a quote line after the heading |
| Extractor.QuoteGroup | scripts/extract_room_data.py:52 | the lazy quoted group ending at the next quote one character on; `QuoteAfterHeading` gives its value |
| Extractor.OneLine | scripts/extract_room_data.py:54 | `.strip().replace('\n', ' ')`: its ensures say the result is stripped and holds no newline |
| Extractor.DescriptionFrom | scripts/extract_room_data.py:57-59 | the `>\s*".+?"\n\n(.+?)(?=\n##)` scan from a position; `DescriptionAfterHeading` gives its value |
| Extractor.Paragraph | scripts/extract_room_data.py:57 | the lazy paragraph group up to the first `\n##`; `DescriptionAfterHeading` gives its value |
| Extractor.BulletNameAt | scripts/extract_room_data.py:65 | the `\*\*(.+?)\*\*` part of the bullet pattern: its ensures keep the match on one line and past its start; `BulletsOfLines` gives its groups |
| Extractor.BulletDescriptionAt | scripts/extract_room_data.py:65 | the `[:\s]*(.+)` part of the bullet pattern; `BulletsOfLines` gives its groups |
| Extractor.BulletItem | scripts/extract_room_data.py:68-69 | one `{name, description}` with both groups stripped: its ensures say both are stripped and on one line |
| Extractor.ItemsValue | scripts/extract_room_data.py:71 | the items as a JSON array, absent exactly when there are none, holding one object per item in order |
| Extractor.StepTextAt | scripts/extract_room_data.py:98 | the `\*\*\s*(.+)` tail of the step pattern: its ensures keep the match on one line; `StepsOfLines` gives its group |
| Extractor.StepText | scripts/extract_room_data.py:99 | the stripped step group: stripped and on one line |
| Extractor.LiturgyDict | scripts/extract_room_data.py:88-99 | the liturgy dictionary; `LiturgyDictContents` states every key and value |
| Extractor.FirstNumberFrom | scripts/extract_room_data.py:14-15 | the leftmost `room_(\d+)_` match from a position; its ensures state it matches there and nowhere earlier, and that none means no match |
| Extractor.NumberDigits | scripts/extract_room_data.py:15-16 | the digits of the match: non-empty, all digits, framed by `room_` and `_` |
| Extractor.Collect | scripts/extract_room_data.py:16-117 | the record of the present fields: every key it holds is one of the listed keys; `ParseRoomSpecField` states each value |
| Json.StepKey | castle/Sources/Models/RoomInstance.swift:137-139 | `step_<k>` starts with `step_` |
| Json.StepKeyInjective | castle/Sources/Models/RoomInstance.swift:137-139 | different step numbers give different keys |
| Json.StepKeyNotNamed | castle/Sources/Models/RoomInstance.swift:133-139 | no step key is `entry` or `exit` |
| Merge.CopySpecFields | scripts/extract_room_data.py:143-147 | the room after the key loop: each of the eleven keys the spec has is overwritten, every other key kept |
| Merge.UpdateWing | scripts/extract_room_data.py:138-148 | one wing's rooms after the loop, and the count of its rooms whose number has a spec |
| Merge.ReadSpecs | scripts/extract_room_data.py:129-133 | the spec index built by the loop: each parsed record with a number, under that number, in file order |
| Merge.UpdateWings | scripts/extract_room_data.py:136-148 | the merged wings and `updated_count`, the number of rooms whose number is in the index |
| Merge.UpdateRoomsData | scripts/extract_room_data.py:122-148 | parse, index and merge together; a room without a `number` ends in the `KeyError` outcome (`MissingNumber`) and nothing is written |
| Merge.MergeKeepsBasicFields | scripts/extract_room_data.py:142-147 | a key outside the eleven, `number` included, keeps its presence and value, and no key is removed |
| Merge.MergeCopiesSpecFields | scripts/extract_room_data.py:143-147 | a listed key the matching spec has is set to the spec's value |
| Merge.OverlayTwice | scripts/extract_room_data.py:143-147 | copying the same spec keys twice gives the same room as once |
| Merge.MergeRoomTwice | scripts/extract_room_data.py:137-147 | merging a room twice with the same index gives the same room as once |
| Merge.MergeWingsIdempotent | scripts/extract_room_data.py:136-148 | a second merge run leaves every room unchanged |
| Merge.SpecIndexKeys | scripts/extract_room_data.py:129-133 | a number is in the index iff some parsed record has it |
| Merge.SpecIndexLastWins | scripts/extract_room_data.py:129-133 | the index holds the last record with that number |
| Merge.FileNumberFromName | scripts/extract_room_data.py:14-16 | a file enters the index iff its name has `room_<digits>_` |
| Merge.Parse | scripts/extract_room_data.py:131 | `parse_room_spec` of one file; `FileNumberFromName` ties its number to the file name |
| Merge.SpecIndex | scripts/extract_room_data.py:129-133 | `spec_data` after the parsed files: `SpecIndexKeys` states its keys and `SpecIndexLastWins` that the last record with a number wins |
| Merge.SpecData | scripts/extract_room_data.py:129-133 | the index of all spec files; `ReadSpecs` computes it by the script's loop |
| Merge.Overlay | scripts/extract_room_data.py:143-147 | `room[key] = spec[key]` for the listed keys the spec has; `MergeCopiesSpecFields`, `MergeKeepsBasicFields` and `OverlayTwice` state its effect |
| Merge.MergeRoom | scripts/extract_room_data.py:137-147 | one room after the merge; `MergeRoomTwice` proves it idempotent |
| Merge.MergeWing | scripts/extract_room_data.py:137-148 | every room of a wing merged in order; `UpdateWing` computes it by the loop |
| Merge.MergeWings | scripts/extract_room_data.py:136-148 | every wing merged in order; `UpdateWings` computes it by the loop and `MergeWingsIdempotent` proves a second run changes nothing |
| Merge.MatchCount | scripts/extract_room_data.py:141-148 | `updated_count`: the rooms whose number has a spec; `UpdateWings` returns it |
| Merge.ReadSpec | scripts/extract_room_data.py:128-131 | one pass of the spec loop: a parsed file with a `number` is filed under it, replacing an earlier one, and a file without one changes nothing |
| Instances.FrictionFromRaw | castle/Sources/Models/RoomInstance.swift:65-69 | a level parsed from a string has that string as its raw value |
| Instances.FrictionRawRoundTrip | castle/Sources/Models/RoomInstance.swift:65-69 | parsing a level's raw value gives the level back, and exactly "Zero", "Low", "Medium" and "High" parse |
| Instances.FrictionColorsDistinct | castle/Sources/Models/RoomInstance.swift:71-78 | `color` is total over the four levels and gives each a colour of its own |
| Instances.NewRoomInstance | castle/Sources/Models/RoomInstance.swift:42-60 | a new instance has no id, familiarity 0.0, health 1.0, friction medium, is inactive, and has an empty name, inventory and constraints unless given |
| Instances.Decode | castle/Sources/Models/RoomInstance.swift:110-131 | the key loop of `init(from:)` computes the decoding function over the container's pairs in `allKeys` order |
| Instances.DecodeErrSticks | castle/Sources/Models/RoomInstance.swift:117-118 | once a value fails to decode as a string, decoding fails whatever follows |
| Instances.DecodeFailsIffNonString | castle/Sources/Models/RoomInstance.swift:118 | decoding fails exactly when some value is not a string |
| Instances.DecodeEntry | castle/Sources/Models/RoomInstance.swift:113-129 | `entry` is "" when the key is absent, and its value otherwise |
| Instances.DecodeExit | castle/Sources/Models/RoomInstance.swift:114-129 | `exit` is "" when the key is absent, and its value otherwise |
| Instances.DecodeSteps | castle/Sources/Models/RoomInstance.swift:115-130 | the steps are the values of the `step_` keys in container order; every other key is ignored |
| Instances.DecodeStepCount | castle/Sources/Models/RoomInstance.swift:117-126 | there are as many steps as `step_` keys |
| Instances.DecodeSnoc | castle/Sources/Models/RoomInstance.swift:117-126 | one more pair sets `entry`, sets `exit`, appends a step, or changes nothing, by its key |
| Instances.Encode | castle/Sources/Models/RoomInstance.swift:133-140 | the encoding loop computes the encoding function |
| Instances.EncodeSpec | castle/Sources/Models/RoomInstance.swift:133-140 | the encoding has two pairs more than there are steps |
| Instances.StepPairs | castle/Sources/Models/RoomInstance.swift:137-139 | the i-th step is written under `step_<i+1>` |
| Instances.EncodeKeys | castle/Sources/Models/RoomInstance.swift:133-140 | the encoding writes `entry`, `exit`, then `step_1..step_n` with the steps in order |
| Instances.EncodedPairs | castle/Sources/Models/RoomInstance.swift:133-140 | every encoded value is a string, `entry` and `exit` hold their fields, and no step key is `entry` or `exit` |
| Instances.StepValuesOfEncode | castle/Sources/Models/RoomInstance.swift:123-139 | the `step_` values of an encoding are the steps in order |
| Instances.StepValuesPermutation | castle/Sources/Models/RoomInstance.swift:117 | reordering the container's pairs permutes the collected steps |
| Instances.RoundTripUpToOrder | castle/Sources/Models/RoomInstance.swift:110-140 | decoding any key order of an encoding succeeds and gives back `entry`, `exit` and the multiset of steps |
| Instances.DecodeFollowsContainerOrder | castle/Sources/Models/RoomInstance.swift:117-126 | as written: a container listing `step_2` before `step_1` decodes two steps in swapped order, so decode(encode(l)) is not l |
| Instances.DecodeInOrder | castle/Sources/Models/RoomInstance.swift:110-131 | corrected decoder, collecting `step_1`, `step_2`, … by number: succeeds exactly when the container's decoding does |
| Instances.StepsFromEncoded | castle/Sources/Models/RoomInstance.swift:137-139 | reading the steps by number from any order of an encoding gives the steps from that number on |
| Instances.RoundTripInOrder | castle/Sources/Models/RoomInstance.swift:110-140 | corrected decoder: decode(encode(l)) == l for every key order |
| Instances.FrictionColor | castle/Sources/Models/RoomInstance.swift:71-78 | the four colour names; they are distinct (see Instances.FrictionColorsDistinct) |
| Instances.ItemStatusFromRaw | castle/Sources/Services/EngineerService.swift:162 | exactly "Operational", "Missing" and "Broken" name an item status |
| Instances.FrictionRaw | castle/Sources/Models/RoomInstance.swift:65-69 | the raw value of a friction level; `FrictionRawRoundTrip` proves it inverse to `FrictionFromRaw` |
| Instances.StepValues | castle/Sources/Models/RoomInstance.swift:117-126 | the `step_` values in container order; `StepValuesOfEncode` and `StepValuesPermutation` state them for an encoding |
| Definitions.NewRoomDefinition | castle/Sources/Models/RoomDefinition.swift:56-88 | the initialiser keeps the four required fields and leaves every rich field absent |
| Definitions.LevelFor | castle/Sources/Models/RoomDefinition.swift:93-108 | each of the four levels holds exactly when its marker is present on the lower-cased hint and no earlier marker is: high, then medium or moderate, then meta, else low |
| Definitions.MetaOnBothAxes | castle/Sources/Models/RoomDefinition.swift:93-108 | a hint with "meta" and no high, medium or moderate marker is meta on both the Dionysian and the Apollonian axis |
| Definitions.LevelIgnoresCase | castle/Sources/Models/RoomDefinition.swift:94-103 | the level read from a hint does not depend on its case |
| Definitions.FlattenAppend | castle/Sources/Models/RoomDefinition.swift:159 | flattening keeps wing order: the rooms of the earlier wings come first |
| Definitions.FlattenMembership | castle/Sources/Models/RoomDefinition.swift:159 | a room is in the flat list exactly when some wing holds it |
| Definitions.FirstWithId | castle/Sources/Models/RoomDefinition.swift:165-167 | the index found holds a room with that id and no earlier room has it; none is found exactly when no room has it |
| Definitions.FirstWingNamed | castle/Sources/Models/RoomDefinition.swift:173-175 | the index found holds a wing with that name and no earlier wing has it; none is found exactly when no wing has it |
| Definitions.RoomLoader.constructor | castle/Sources/Models/RoomDefinition.swift:150-163 | the shared loader starts from the decoded wings, or none when loading failed, with the flat list in step |
| Definitions.RoomLoader.LoadRooms | castle/Sources/Models/RoomDefinition.swift:150-163 | on success both the wings and the flat room list are replaced and stay in step; on failure nothing changes |
| Definitions.LookupById | castle/Sources/Models/RoomDefinition.swift:165-171 | `definition(for:)` agrees with `room(byId:)`, which finds a room exactly when some wing holds a room with that id, and returns a room with that id |
| Definitions.RoomsInWingLookup | castle/Sources/Models/RoomDefinition.swift:173-175 | `rooms(inWing:)` gives the rooms of the first wing with that name |
| Definitions.RoomsInWingMissing | castle/Sources/Models/RoomDefinition.swift:173-175 | `rooms(inWing:)` is empty when no wing has that name |
| Definitions.DionysianLevel | castle/Sources/Models/RoomDefinition.swift:93-100 | `dionysianLevel`, `LevelFor` of the Dionysian hint; `MetaOnBothAxes` and `LevelIgnoresCase` state its properties |
| Definitions.ApollonianLevel | castle/Sources/Models/RoomDefinition.swift:102-108 | `apollonianLevel`, `LevelFor` of the Apollonian hint; `MetaOnBothAxes` and `LevelIgnoresCase` state its properties |
| Definitions.Flatten | castle/Sources/Models/RoomDefinition.swift:159 | `flatMap { $0.rooms }`; `FlattenAppend` and `FlattenMembership` state that it keeps order and holds exactly the wings' rooms |
| Definitions.RoomLoader.RoomById | castle/Sources/Models/RoomDefinition.swift:165-167 | `room(byId:)`, `FirstWithId` on the flat list; `LookupById` states it finds a room exactly when some wing holds one with that id, and that the room carries the id |
| Definitions.RoomLoader.Definition | castle/Sources/Models/RoomDefinition.swift:169-171 | `definition(for:)`; `LookupById` states it agrees with `room(byId:)` |
| Definitions.RoomLoader.RoomsInWing | castle/Sources/Models/RoomDefinition.swift:173-175 | `rooms(inWing:)`; `RoomsInWingLookup` and `RoomsInWingMissing` state its value for a present and an absent wing |
| Blocks.NewRecurringBlock | castle/Sources/Models/RecurringBlock.swift:49-75 | a new block is active, has no id, no completions, misses or last completion, and starts on the hour for 60 minutes unless told otherwise |
| Blocks.DayNamesAgree | castle/Sources/Models/RecurringBlock.swift:78-88 | days 1 to 7 have short names that are the first three letters of the full names and tell the days apart; any other day is "?" or "Unknown" |
| Blocks.HourLabelRoundTrip | castle/Sources/Models/RecurringBlock.swift:91-93 | for an hour 0 to 23 the clock-face hour is 1 to 12, "AM" is shown exactly before noon, and the two give the hour back |
| Blocks.MinuteLabel | castle/Sources/Models/RecurringBlock.swift:94-97 | on the hour the label has no minutes; otherwise the minutes are two digits that read back as the minutes |
| Blocks.AdherenceInRange | castle/Sources/Models/RecurringBlock.swift:101-105 | with non-negative counts the adherence rate is between 0 and 1 and is the completed share of all recorded blocks |
| Blocks.StrugglingMeansMoreMissed | castle/Sources/Models/RecurringBlock.swift:108-110 | a block is struggling exactly when it has at least three misses and more misses than completions |
| Blocks.DayName | castle/Sources/Models/RecurringBlock.swift:78-82 | `dayName`; `DayNamesAgree` proves it the first three letters of `dayNameFull`, distinct for the seven days and "?" off the week |
| Blocks.DayNameFull | castle/Sources/Models/RecurringBlock.swift:84-88 | `dayNameFull`; `DayNamesAgree` proves it "Unknown" off the week and extended by the short name |
| Blocks.Hour12 | castle/Sources/Models/RecurringBlock.swift:92 | the clock-face hour; `HourLabelRoundTrip` proves it in 1..12 and, with the period, giving the hour back |
| Blocks.Period | castle/Sources/Models/RecurringBlock.swift:93 | the period; `HourLabelRoundTrip` proves it AM exactly before noon |
| Blocks.TimeString | castle/Sources/Models/RecurringBlock.swift:91-98 | `timeString`; `HourLabelRoundTrip` and `MinuteLabel` state the hour and the two-digit minute it shows, with no colon on the hour |
| Blocks.AdherenceRate | castle/Sources/Models/RecurringBlock.swift:101-105 | `adherenceRate`; `AdherenceInRange` proves it in [0, 1] and, with anything recorded, the completed share of the total |
| Blocks.IsStruggling | castle/Sources/Models/RecurringBlock.swift:108-110 | `isStruggling`; `StrugglingMeansMoreMissed` proves it holds exactly with three or more misses and more misses than completions |
| Seasons.WingFromRaw | castle/Sources/Models/Season.swift:19-25 | a raw value that parses names the wing whose raw value it is |
| Seasons.WingRawRoundTrip | castle/Sources/Models/Season.swift:19-25 | parsing a wing's raw value gives the wing back, and a string parses exactly when it is some wing's raw value |
| Seasons.WingTablesInjective | castle/Sources/Models/Season.swift:19-58 | raw values, display names, colours and energy descriptions each tell the six wings apart |
| Seasons.NewSeason | castle/Sources/Models/Season.swift:71-85 | a new season keeps its name, wing, dates and notes, has no id, and has no focus rooms unless given |
| Seasons.ActiveInterval | castle/Sources/Models/Season.swift:88-91 | a season is active on both of its end dates, and never when it ends before it starts |
| Seasons.WingRaw | castle/Sources/Models/Season.swift:19-25 | the raw values; `WingRawRoundTrip` proves them inverse to `Wing(rawValue:)` |
| Seasons.DisplayName | castle/Sources/Models/Season.swift:27-36 | `displayName`; `WingTablesInjective` proves it separates the wings |
| Seasons.WingColor | castle/Sources/Models/Season.swift:38-47 | `color`; `WingTablesInjective` proves it separates the wings |
| Seasons.EnergyDescription | castle/Sources/Models/Season.swift:49-58 | `energyDescription`; `WingTablesInjective` proves it separates the wings |
| Seasons.IsActive | castle/Sources/Models/Season.swift:88-91 | `isActive`; `ActiveInterval` proves it active on both ends and never for an inverted interval |
| Sessions.NewSession | castle/Sources/Models/Session.swift:53-65 | a new session keeps the ids and names, starts at the clock reading, has no end, no id and no observations |
| Sessions.Truncate | castle/Sources/Models/Session.swift:24 | `Int(_:)` on a `Double` drops the fraction toward zero: the result is within one of the value, on the zero side |
| Sessions.DurationSeconds | castle/Sources/Models/Session.swift:22-25 | a session has a duration exactly when it has ended |
| Sessions.ActiveIffNoDuration | castle/Sources/Models/Session.swift:28-40 | a session is active exactly while it has no duration, and only then reads "In progress..." |
| Sessions.ShortDurationHasNoMinutes | castle/Sources/Models/Session.swift:30-35 | under a minute the label is the seconds alone with no minutes part |
| Sessions.LongDurationSplits | castle/Sources/Models/Session.swift:30-33 | from a minute on the label shows the whole minutes and the remaining seconds, which add back up to the duration |
| Sessions.IsActive | castle/Sources/Models/Session.swift:38-40 | `isActive`; `ActiveIffNoDuration` proves it holds exactly when there is no duration |
| Sessions.FormatSeconds | castle/Sources/Models/Session.swift:29-35 | "Xm Ys" or "Ys"; `ShortDurationHasNoMinutes` and `LongDurationSplits` state both cases and that the parts add back up |
| Sessions.FormattedDuration | castle/Sources/Models/Session.swift:28-36 | `formattedDuration`; `ActiveIffNoDuration` states it reads "In progress..." exactly while active and the duration otherwise |
| Navigator.DefaultSomaticState | castle/Sources/Services/NavigatorService.swift:239-241 | the default state is medium energy, medium tension and calm |
| Navigator.Formatted | castle/Sources/Services/NavigatorService.swift:274-279 | a user message reads "User: " and a navigator message "Navigator: ", each followed by the text itself |
| Navigator.FormattedInjective | castle/Sources/Services/NavigatorService.swift:274-279 | two messages that format alike are the same message: role and text can be read back |
| Navigator.RoomLines | castle/Sources/Services/NavigatorService.swift:142-151 | the position section always opens with the "Currently In" heading; `PromptShape` states it says "Not in any room" exactly when there is no current room |
| Navigator.InstanceSection | castle/Sources/Services/NavigatorService.swift:165-172 | the loop over the first 15 instances yields the heading and one line per instance shown, in order |
| Navigator.RitualSection | castle/Sources/Services/NavigatorService.swift:185-190 | the loop over the first 5 rituals yields the heading and one line per ritual shown, in order |
| Navigator.BuildPrompt | castle/Sources/Services/NavigatorService.swift:127-196 | the prompt is the sections' lines in their order, joined by newlines |
| Navigator.PromptShape | castle/Sources/Services/NavigatorService.swift:142-193 | the prompt ends with the question; it says "Not in any room" exactly when there is no current room; at most 15 instances and 5 rituals are listed, the first ones in order |
| Navigator.GroupAt | castle/Sources/Services/NavigatorService.swift:200 | a match of the pattern at a position captures three digits at or after it |
| Navigator.FirstMatchFrom | castle/Sources/Services/NavigatorService.swift:202 | the first match is at some position from the start on, and nothing is found only when no position matches |
| Navigator.FirstThreeDigits | castle/Sources/Services/NavigatorService.swift:200 | the leftmost run of three digits: it is one, and no earlier position starts one |
| Navigator.MatchIsFirstDigitRun | castle/Sources/Services/NavigatorService.swift:198-207 | the optional "Room" prefix never changes which digits are captured: the match is the leftmost three-digit run |
| Navigator.RecommendationIsFirstDigits | castle/Sources/Services/NavigatorService.swift:198-207 | a room is recommended exactly when the reply has three digits in a row, and it is the first such run |
| Navigator.Appended | castle/Sources/Services/NavigatorService.swift:209-214 | the new message is last, the rest is a suffix of the old history, nothing is dropped under 50 and the history never grows past 50 |
| Navigator.NavigatorService.constructor | castle/Sources/Services/NavigatorService.swift:13-17 | the service starts idle with no response and an empty history |
| Navigator.NavigatorService.AddToHistory | castle/Sources/Services/NavigatorService.swift:209-214 | appends the message and drops the oldest once over 50; nothing else changes |
| Navigator.NavigatorService.Diagnose | castle/Sources/Services/NavigatorService.swift:71-98 | when the call throws it fails with the call's own error, and when the result has no text with `InvalidResponse`, the history untouched in both cases; with a reply it records the response with the parsed room and appends the prompt and the reply; the processing flag is down afterwards |
| Navigator.NavigatorService.Chat | castle/Sources/Services/NavigatorService.swift:100-123 | the message enters the history first and stays there when the call throws (its error is returned) or gives no text (`InvalidResponse`); the prompt sent is the last ten entries formatted, then the message; a reply is appended and returned |
| Navigator.FormatAll | castle/Sources/Services/NavigatorService.swift:106-108 | one formatted line per message, in order |
| Navigator.ChatContextBounded | castle/Sources/Services/NavigatorService.swift:104-109 | the chat context covers at most ten entries, the newest being the message just sent |
| Navigator.PromptParts | castle/Sources/Services/NavigatorService.swift:127-193 | the lines `buildPrompt` appends; `PromptShape` states it ends with the question lines and holds the room, instance and ritual lines it lists |
| Navigator.ParseRoomRecommendation | castle/Sources/Services/NavigatorService.swift:198-207 | `parseRoomRecommendation`; `RecommendationIsFirstDigits` and `ParseFindsFirstRun` state it is the first three-digit run, none exactly when there is none |
| Navigator.ParseFindsFirstRun | castle/Sources/Services/NavigatorService.swift:198-207 | the recommendation is the three characters at the first three-digit run, none when there is none |
| Navigator.FirstDigitRunUnique | castle/Sources/Services/NavigatorService.swift:200-202 | three digits at a position with none earlier are what the search finds |
| Navigator.PromptOpensWithState | castle/Sources/Services/NavigatorService.swift:130-134 | the prompt opens with the state heading, then the energy, tension and mood, in that order |
| Navigator.StateLines | castle/Sources/Services/NavigatorService.swift:130-139 | the state section, with the time of day only when it is known; `PromptOpensWithState` states its first four lines |
| Navigator.InstanceLines | castle/Sources/Services/NavigatorService.swift:164-172 | the instance section; `PromptShape` states its length and that it lists the first 15 instances in order, and `InstanceSection` computes it by the loop |
| Navigator.SeasonLines | castle/Sources/Services/NavigatorService.swift:174-182 | the season section is present exactly with an active season, and then names its wing's display name |
| Navigator.RitualLines | castle/Sources/Services/NavigatorService.swift:184-190 | the ritual section; `PromptShape` states it lists at most 5 rituals, and `RitualSection` computes it by the loop |
| Music.MusicService.CurrentTrack | castle/Sources/Services/MusicService.swift:250-253 | the track under the cursor, and none exactly when the cursor is past the playlist |
| Music.MusicService.constructor | castle/Sources/Services/MusicService.swift:13-21 | the player starts paused at time zero with an empty playlist, no instance and the cursor at the start |
| Music.MusicService.LoadTrack | castle/Sources/Services/MusicService.swift:58-98 | the player is handed the track; the cursor, flags and playlist are unchanged |
| Music.MusicService.LoadPlaylist | castle/Sources/Services/MusicService.swift:48-56 | the playlist and instance are replaced, the cursor is on the first track, which is loaded when there is one |
| Music.MusicService.Play | castle/Sources/Services/MusicService.swift:100-103 | playing, nothing else changes |
| Music.MusicService.Pause | castle/Sources/Services/MusicService.swift:105-108 | paused, nothing else changes |
| Music.MusicService.TogglePlayback | castle/Sources/Services/MusicService.swift:110-116 | flips the playing flag and nothing else |
| Music.MusicService.Stop | castle/Sources/Services/MusicService.swift:118-122 | paused and the time back at zero, the cursor unchanged |
| Music.MusicService.PlayNext | castle/Sources/Services/MusicService.swift:124-138 | before the last track it moves to the next one and plays it; on the last track or with none it stops and goes back to the first track without playing; the cursor stays valid |
| Music.MusicService.PlayPrevious | castle/Sources/Services/MusicService.swift:140-151 | more than three seconds in, or on the first track, the cursor stays; otherwise it steps back one track and plays |
| Music.MusicService.PlayTrack | castle/Sources/Services/MusicService.swift:157-162 | an index outside the playlist changes nothing; otherwise the cursor moves there and that track plays |
| Music.FormatTimeShape | castle/Sources/Services/MusicService.swift:263-267 | for a non-negative time the label is the whole minutes, a colon and exactly two digits that read back as the remaining seconds |
| Music.FormatTimeIgnoresFraction | castle/Sources/Services/MusicService.swift:263-267 | the label does not depend on the fraction of a second |
| Music.FormatTime | castle/Sources/Services/MusicService.swift:263-267 | `formatTime`; `FormatTimeShape` and `FormatTimeIgnoresFraction` state its m:ss shape and truncation |
| AgentJson.FirstIndex | castle/Sources/Services/EngineerService.swift:434 | the index of the first occurrence of the character, and none exactly when it does not occur |
| AgentJson.LastIndex | castle/Sources/Services/EngineerService.swift:435 | the index of the last occurrence of the character, and none exactly when it does not occur |
| AgentJson.ExtractJson | castle/Sources/Services/EngineerService.swift:433-440 | none exactly when a brace is missing; otherwise a slice of the text that starts with its first '{' and ends with its last '}' (the same function is at StrategistService.swift:383 and RoomGuideService.swift:298) |
| AgentJson.ExtractFromProse | castle/Sources/Services/RoomGuideService.swift:298-305 | a JSON object set in prose without braces is extracted whole |
| Engineer.FindInstance | castle/Sources/Services/EngineerService.swift:159-199 | the first local instance with that id, and none exactly when no instance has it |
| Engineer.BuildInventory | castle/Sources/Services/EngineerService.swift:160-168 | the loop builds one item per update, in order |
| Engineer.ItemDefaults | castle/Sources/Services/EngineerService.swift:162-166 | a missing or unknown status becomes Operational, "Broken" is kept, and an item is critical only when the flag says true |
| Engineer.ActionEffectCases | castle/Sources/Services/EngineerService.swift:134-212 | an action of unknown type, without the fields its type needs, or naming no local instance changes nothing; any other action replies once and writes exactly when the save succeeds |
| Engineer.HealthStoredClamped | castle/Sources/Services/EngineerService.swift:195-200 | the stored health is the received one clamped into 0 to 1, and unchanged when already inside it |
| Engineer.AddConstraintKeepsDistinct | castle/Sources/Services/EngineerService.swift:179-192 | adding a constraint keeps a duplicate-free list duplicate-free and the constraint is then present |
| Engineer.InventoryReplaced | castle/Sources/Services/EngineerService.swift:155-177 | the inventory is replaced by one item per update, in order and under the update's name, and no other field changes |
| Engineer.HealthMessageOverstates | castle/Sources/Services/EngineerService.swift:200-203 | as written, a health of 1.5 is stored as 1.0 but announced as 150% |
| Engineer.StoredHealthMessageInRange | castle/Sources/Services/EngineerService.swift:200-203 | the corrected reply shows a percentage between 0 and 100 that is the stored health |
| Engineer.EngineerService.constructor | castle/Sources/Services/EngineerService.swift:53-58 | the service starts with no messages, no pending action or generated instance, and not loading |
| Engineer.EngineerService.ExecuteAction | castle/Sources/Services/EngineerService.swift:134-212 | appends the action's replies and records its write, as the action rules say (a health update stores the clamped value and announces the received one); the local instances are only read |
| Engineer.EngineerService.Save | castle/Sources/Services/EngineerService.swift:171-176 | a successful save records the write and the success reply; a failed one only the failure reply |
| Engineer.EngineerService.SendMessage | castle/Sources/Services/EngineerService.swift:62-130 | the user's message is logged first; the conversation sent is the last six messages including it; the reply's messages follow; loading is off afterwards |
| Engineer.EngineerService.HandleText | castle/Sources/Services/EngineerService.swift:109-125 | a reply that decodes adds its message and then its action's effect; one that does not is added as plain text |
| Engineer.EngineerService.ApplyResponse | castle/Sources/Services/EngineerService.swift:116-121 | a decoded reply's message is appended first, then its action (if any) runs and adds its own replies and write |
| Engineer.EngineerService.ClearMessages | castle/Sources/Services/EngineerService.swift:378-382 | messages, generated instance and pending action are cleared; nothing else changes |
| Engineer.FormatAll | castle/Sources/Services/EngineerService.swift:70-75 | one "User: " or "Engineer: " line per message, in order |
| Engineer.ConversationEndsWithUser | castle/Sources/Services/EngineerService.swift:63-75 | the conversation sent holds at most six messages, the newest being the user's message |
| Engineer.Clamp | castle/Sources/Services/EngineerService.swift:200 | `max(0, min(1, health))`; `HealthStoredClamped` proves the stored value in [0, 1] and unchanged inside it |
| Engineer.HealthMessage | castle/Sources/Services/EngineerService.swift:203 | the reply as written, with the received value; `HealthMessageOverstates` shows it announcing 150% |
| Engineer.StoredHealthMessage | castle/Sources/Services/EngineerService.swift:200-203 | the corrected reply with the stored value; `StoredHealthMessageInRange` proves its percentage in [0, 100] |
| Engineer.ItemFrom | castle/Sources/Services/EngineerService.swift:160-166 | one inventory update; `ItemDefaults` states its defaults |
| Engineer.InventoryFrom | castle/Sources/Services/EngineerService.swift:160-168 | the updates mapped in order; `InventoryReplaced` states the update replaces the items |
| Engineer.ActionEffect | castle/Sources/Services/EngineerService.swift:134-212 | what `executeAction` replies and writes for each action type; `ActionEffectCases`, `HealthStoredClamped`, `AddConstraintKeepsDistinct` and `InventoryReplaced` state its cases, and `ExecuteAction` carries it out |
| Engineer.ResponseEffect | castle/Sources/Services/EngineerService.swift:116-121 | a decoded reply: its message, then its action's effect; `ApplyResponse` carries it out |
| Engineer.ReplyEffect | castle/Sources/Services/EngineerService.swift:109-129 | what a reply adds: the connection message on a throw, the decoded response, or the raw text; `TextEffect` splits it and `SendMessage` carries it out |
| Engineer.TextEffect | castle/Sources/Services/EngineerService.swift:113-124 | a reply text has its decoded response's effect, or is shown as it is when it holds no decodable block |
| Engineer.FormatMessage | castle/Sources/Services/EngineerService.swift:70-75 | a context line: "User: " or "Engineer: " and the content; `FormatMessageInjective` proves the line gives the message back |
| Engineer.FormatMessageInjective | castle/Sources/Services/EngineerService.swift:70-75 | two messages with the same context line are the same message: role and content can be read back |
| Strategist.ProposalIdParts | castle/Sources/Services/StrategistService.swift:34 | for days 1 to 7 a block's id is the day's digit followed by the room name, so two blocks share an id exactly when they share the day and the room name |
| Strategist.ProposeSeason | castle/Sources/Services/StrategistService.swift:155-158 | a season proposal needs both the season and the blocks, and then shows exactly those with one reply and no session |
| Strategist.ScheduleSession | castle/Sources/Services/StrategistService.swift:160-192 | a missing field or an unparsable date gives exactly one error reply; a session is written exactly when the fields are there, the date parses and the save succeeds, lasting 30 minutes unless told otherwise and not completed |
| Strategist.UnknownActionIgnored | castle/Sources/Services/StrategistService.swift:194-196 | any other action type changes nothing |
| Strategist.FormatAll | castle/Sources/Services/StrategistService.swift:78-83 | one "User: " or "Strategist: " line per message, in order |
| Strategist.StrategistService.constructor | castle/Sources/Services/StrategistService.swift:54-58 | the service starts with no messages, no proposal and not loading |
| Strategist.StrategistService.ExecuteAction | castle/Sources/Services/StrategistService.swift:153-197 | appends the action's replies, sets the proposal when the action drafts one and records the session written |
| Strategist.StrategistService.SendMessage | castle/Sources/Services/StrategistService.swift:70-149 | the user's message is logged first; the conversation sent is the last six messages including it; the reply's messages and the action's effects follow; loading is off afterwards |
| Strategist.StrategistService.HandleText | castle/Sources/Services/StrategistService.swift:129-144 | a reply that decodes adds its message and then its action's effect; one that does not is added as plain text |
| Strategist.StrategistService.ApplyResponse | castle/Sources/Services/StrategistService.swift:136-138 | a decoded reply's message is appended first, then its action (if any) runs: its replies are added, the proposal it drafts replaces the shown one and the session it writes is recorded |
| Strategist.StrategistService.ClearMessages | castle/Sources/Services/StrategistService.swift:316-318 | the log is emptied and any proposal stays |
| Strategist.ProposalId | castle/Sources/Services/StrategistService.swift:34 | the proposal id; `ProposalIdParts` states it is the day's digits followed by the room name |
| Strategist.ActionEffect | castle/Sources/Services/StrategistService.swift:153-197 | what `executeAction` does; `ProposeSeason`, `ScheduleSession` and `UnknownActionIgnored` state its cases, and `ExecuteAction` carries it out |
| Strategist.ResponseEffect | castle/Sources/Services/StrategistService.swift:136-138 | a decoded reply: its message, then its action's effect; `ApplyResponse` carries it out |
| Strategist.StructuredReply | castle/Sources/Services/StrategistService.swift:132-136 | the decoded response when the reply holds a braced block that decodes; `HandleText` branches on it |
| Strategist.ReplyEffect | castle/Sources/Services/StrategistService.swift:129-148 | what a reply adds: the connection message on a throw, the decoded response, or the raw text; `SendMessage` carries it out |
| Strategist.FormatMessage | castle/Sources/Services/StrategistService.swift:78-83 | a context line: "User: " or "Strategist: " and the content; `FormatMessageInjective` proves the line gives the message back |
| Strategist.FormatMessageInjective | castle/Sources/Services/StrategistService.swift:78-83 | two messages with the same context line are the same message: role and content can be read back |
| Guide.GreetingParts | castle/Sources/Services/RoomGuideService.swift:169-179 | the greeting names the room and the variant, or "this space" for an unnamed variant; its middle paragraph is the instance's reason when it has one, else the room's function; it closes with the standing question |
| Guide.DisplayTextCases | castle/Sources/Services/RoomGuideService.swift:59-71 | without an image the words are shown and sent unchanged; with one they are shown after a camera sign, "[Image]" standing in for no words, and an empty message asks about the image |
| Guide.FormatAll | castle/Sources/Services/RoomGuideService.swift:290-295 | one "User: " or "Guide: " line per message, in order |
| Guide.ContextIsRecent | castle/Sources/Services/RoomGuideService.swift:288-296 | the context shows the newest messages, at most six, one line each |
| Guide.FindInstance | castle/Sources/Services/RoomGuideService.swift:156 | the first local instance with that id, and none exactly when no instance has it |
| Guide.MasteryUpdate | castle/Sources/Services/RoomGuideService.swift:149-165 | an update applies only to an `update_mastery` action with dimensions and an instance id, and gives that instance the new dimensions |
| Guide.MasteryUpdateKeepsRest | castle/Sources/Services/RoomGuideService.swift:156-157 | the updated instance is a local instance with that id in which only the mastery dimensions differ |
| Guide.RoomGuideService.constructor | castle/Sources/Services/RoomGuideService.swift:15-26 | the guide starts with no messages, no room and not loading |
| Guide.RoomGuideService.StartGuiding | castle/Sources/Services/RoomGuideService.swift:31-39 | the guide holds the room and the log is exactly its greeting |
| Guide.RoomGuideService.EndGuiding | castle/Sources/Services/RoomGuideService.swift:42-46 | the room is dropped and the log emptied |
| Guide.RoomGuideService.ExecuteAction | castle/Sources/Services/RoomGuideService.swift:149-165 | when the update applies, the notice is logged whether or not the save succeeds, and the instance is written only when it does; otherwise nothing changes |
| Guide.RoomGuideService.SendMessage | castle/Sources/Services/RoomGuideService.swift:55-105 | with no room being guided nothing happens; otherwise the display text is logged first, the prompt is the recent context then the words sent, and the reply's messages and write follow |
| Guide.RoomGuideService.Exchange | castle/Sources/Services/RoomGuideService.swift:60-104 | the user's display text, then the reply's messages, are logged and its write recorded; loading is off afterwards |
| Guide.RoomGuideService.HandleText | castle/Sources/Services/RoomGuideService.swift:84-100 | a reply that decodes adds its message and then its action's effect; one that does not is added as plain text |
| Guide.ChatPrompt | castle/Sources/Services/RoomGuideService.swift:68-71 | the prompt is the recent conversation, a blank line, then "User: " and the words sent |
| Guide.ReplyShape | castle/Sources/Services/RoomGuideService.swift:84-104 | a reply adds one guide message, plus the mastery notice when its action applied; a write happens only for an applied action whose save succeeds |
| Guide.Greeting | castle/Sources/Services/RoomGuideService.swift:169-179 | `generateGreeting`; `GreetingParts` states it names the room and its parts |
| Guide.DisplayText | castle/Sources/Services/RoomGuideService.swift:59-71 | the logged user text; `DisplayTextCases` states it for each combination of text and image |
| Guide.PromptText | castle/Sources/Services/RoomGuideService.swift:59-71 | the text sent to the model; `DisplayTextCases` states it for each combination of text and image |
| Guide.ConversationContext | castle/Sources/Services/RoomGuideService.swift:288-296 | `buildConversationContext`; `ContextIsRecent` states it is the last six messages, one per line |
| Guide.StructuredReply | castle/Sources/Services/RoomGuideService.swift:88-89 | the decoded response when the reply holds a braced block that decodes; `HandleText`, `ReplyMessages` and `ReplyWrite` branch on it |
| Guide.ReplyMessages | castle/Sources/Services/RoomGuideService.swift:84-104 | the messages a reply adds; `ReplyShape` proves none for an empty reply, otherwise one or two, the second the mastery note |
| Guide.ReplyWrite | castle/Sources/Services/RoomGuideService.swift:84-100 | the instance a reply's action saves; `ReplyShape` proves at most one, and only when the save succeeds and the note is added |
| Guide.FormatMessage | castle/Sources/Services/RoomGuideService.swift:289-294 | a context line: "User: " or "Guide: " and the content; `FormatMessageInjective` proves the line gives the message back |
| Guide.FormatMessageInjective | castle/Sources/Services/RoomGuideService.swift:289-294 | two messages with the same context line are the same message: role and content can be read back |
| CloudFunctions.CheckWhitelist | functions/src/index.ts:22-30 | a missing config document denies everyone, a missing list reads as empty, and otherwise a user is allowed exactly when listed |
| CloudFunctions.RequireAuthorization | functions/src/index.ts:35-44 | a call passes exactly when it is authenticated and whitelisted, and then yields the caller's uid; otherwise it fails with "unauthenticated" or "permission-denied" and the source's message |
| CloudFunctions.MissingConfigDeniesAll | functions/src/index.ts:24-27 | without the config document nobody is let through |
| CloudFunctions.SeedDocsReadBack | functions/src/index.ts:168-270 | every seeded document has a friction the app can decode and scores between 0 and 1 |
| CloudFunctions.SeedIdsAreRoomNumbers | functions/src/index.ts:168-241 | the seed table names nine distinct rooms, each by a three-digit number |
| CloudFunctions.NewDocReadsBack | functions/src/index.ts:298-308 | a created document reads back in the app, with medium friction |
| CloudFunctions.Backend.constructor | functions/src/index.ts:13 | the store starts with the given access document and no rooms |
| CloudFunctions.Backend.Add | functions/src/index.ts:273-310 | a document is appended to the user's rooms and gets a fresh id; nothing else changes |
| CloudFunctions.Backend.SeedRooms | functions/src/index.ts:247-281 | an unauthorized call changes nothing and fails as authorization says; otherwise one document per table entry is added in table order and the message reports the count |
| CloudFunctions.Backend.AddAll | functions/src/index.ts:253-276 | the seeding loop appends one document per entry, in order, to the user's rooms only, and counts exactly the entries |
| CloudFunctions.Backend.CreateRoomInstance | functions/src/index.ts:287-317 | an unauthorized call, or one without a non-empty definition id and variant name, changes nothing and fails; otherwise exactly one unfamiliar, full-health, medium-friction document is added, with an empty inventory by default |
| CloudFunctions.Phase | functions/src/index.ts:572-573 | tracks 1 to 8 get their own phase, every later track "closing", and a track below 1 the word "undefined" |
| CloudFunctions.PartsArePushed | functions/src/index.ts:544-578 | every part of the music prompt is one of the known clauses, pushed under its condition |
| CloudFunctions.HeadsExclusive | functions/src/index.ts:547-578 | no part can open with two different clause heads |
| CloudFunctions.ClauseWhen | functions/src/index.ts:544-578 | a clause is in the prompt exactly when its condition holds |
| CloudFunctions.OptionalClauses | functions/src/index.ts:553-575 | the instruments, sensations, found-sounds and narrative clauses appear exactly when their list is non-empty or the arc is a non-empty string |
| CloudFunctions.MusicPromptEnds | functions/src/index.ts:547-580 | the prompt opens with the room and closes with the track line |
| CloudFunctions.FindConcept | functions/src/index.ts:429 | finds the first concept track with that number, and none exactly when no track has it |
| CloudFunctions.TrackPlan | functions/src/index.ts:424-441 | the concept's prompt and title when it lists the track, otherwise the built prompt and the fallback title |
| CloudFunctions.SkipJsSpace | functions/src/index.ts:506-507 | `parseInt` skips exactly the leading white space |
| CloudFunctions.RunEnd | functions/src/index.ts:506-507 | the digit run read is maximal |
| CloudFunctions.ParseIntOfDigits | functions/src/index.ts:506-507 | `parseInt` reads a plain decimal numeral as its value |
| CloudFunctions.ParseIntOfNegated | functions/src/index.ts:506-507 | `parseInt` reads a minus sign and a decimal numeral as the negated value |
| CloudFunctions.ParseIntRendered | functions/src/index.ts:506-507 | `parseInt` reads back what `String(n)` writes, for every integer |
| CloudFunctions.SecondPiece | functions/src/index.ts:506-507 | `split("Track ")[1]` exists exactly when the title contains the marker |
| CloudFunctions.FallbackTitleKey | functions/src/index.ts:435-507 | a fallback title is read back as its track number and ends in "Track" and the number, unless the room name itself holds the marker |
| CloudFunctions.Filter | functions/src/index.ts:499-501 | the filter keeps exactly the entries it accepts, and no more of them than there were |
| CloudFunctions.Insert | functions/src/index.ts:505-509 | inserting one entry gives a permutation of the entries plus that one |
| CloudFunctions.InsertSorted | functions/src/index.ts:505-509 | inserting into a sorted list keeps it sorted |
| CloudFunctions.SortBy | functions/src/index.ts:505-509 | the sort gives a permutation of its input |
| CloudFunctions.SortBySorted | functions/src/index.ts:505-509 | the sort's result is in key order |
| CloudFunctions.SortIsStable | functions/src/index.ts:505-509 | the sort is stable: entries with the same key keep their order |
| CloudFunctions.SortKeepsSorted | functions/src/index.ts:505-509 | sorting a list already in order leaves it as it is |
| CloudFunctions.PlaylistUpdated | functions/src/index.ts:496-509 | the new track is in the playlist, in track order; every entry not of this track is kept; nothing else is added; no entry but the new one ends in this track's "Track n" |
| CloudFunctions.ConceptTitleNotReplaced | functions/src/index.ts:499-502 | an earlier entry whose title does not end in "Track n" stays beside the regenerated track |
| CloudFunctions.PadStart2 | functions/src/index.ts:469 | padding gives at least two characters ending in the input, and leaves two or more untouched |
| CloudFunctions.FileNumberAgreesWithPad2 | functions/src/index.ts:469 | the storage file numbers tracks as the app's "%02d" does, so numbers below 100 read back |
| CloudFunctions.GenerateTrack | functions/src/index.ts:407-529 | fails as authorization says, or with "invalid-argument" without an instance id, context or non-zero track number; succeeds exactly when the audio came back, storing the planned track under its padded file name and the updated playlist |
| CloudFunctions.FallbackTrackReplaces | functions/src/index.ts:433-509 | a track generated without a concept entry replaces every earlier entry of its number and sorts under its own number |
| CloudFunctions.Truthy | functions/src/index.ts:291 | JavaScript truthiness of an optional string; `CreateRoomInstance` rejects exactly the calls where it fails |
| CloudFunctions.SeedDoc | functions/src/index.ts:253-270 | the document `seedRooms` writes for one entry; `SeedDocsReadBack` proves it reads back in the app |
| CloudFunctions.SeedDocs | functions/src/index.ts:253-276 | one document per seed entry, in order; `SeedDocsReadBack` proves each reads back and `SeedIdsAreRoomNumbers` that the ids are distinct room numbers |
| CloudFunctions.NewDoc | functions/src/index.ts:298-308 | the document `createRoomInstance` writes; `NewDocReadsBack` proves it reads back in the app |
| CloudFunctions.MusicPromptParts | functions/src/index.ts:544-578 | the pushed parts; `PartsArePushed`, `ClauseWhen` and `OptionalClauses` state which parts appear, in order |
| CloudFunctions.BuildMusicPrompt | functions/src/index.ts:534-581 | `buildMusicPrompt`; `MusicPromptEnds` states its fixed opening and closing parts and `OptionalClauses` which clauses it holds |
| CloudFunctions.FallbackTitle | functions/src/index.ts:435-441 | the fallback title; `FallbackTitleKey` proves it sorts by its own track number |
| CloudFunctions.ParseInt | functions/src/index.ts:506-507 | `parseInt` without radix; `ParseIntOfDigits`, `ParseIntOfNegated` and `ParseIntRendered` state its value |
| CloudFunctions.TrackKey | functions/src/index.ts:506-507 | the sort key `parseInt(title.split("Track ")[1]) || 0`; `FallbackTitleKey` states it for a generated title |
| CloudFunctions.Removed | functions/src/index.ts:499-502 | the filter; `PlaylistUpdated` and `ConceptTitleNotReplaced` state what it drops and keeps |
| CloudFunctions.SortByTrack | functions/src/index.ts:505-509 | the sort by track key; `SortBySorted` and `SortIsStable` state it sorted, a permutation and stable |
| CloudFunctions.UpdatePlaylist | functions/src/index.ts:496-509 | the stored playlist; `PlaylistUpdated` proves the new track replaces its namesakes and the rest survive sorted |
| CloudFunctions.TrackFileName | functions/src/index.ts:469 | the storage path; `FileNumberAgreesWithPad2` proves its number is padded as the app pads it |
| SessionView.FormattedTimeRounds | castle/Sources/Views/SessionView.swift:229-237 | from ten minutes on, the label shows the one multiple of ten that is at most the elapsed minutes and within ten of them |
| SessionView.FormattedTimeShort | castle/Sources/Views/SessionView.swift:229-233 | the label reads "< 10 min" exactly under ten minutes |
| SessionView.TimeOfDayOrdered | castle/Sources/Views/SessionView.swift:483-488 | every hour gets one of the three labels, "Afternoon" exactly from 12 to 16, and the part of the day never goes back as the hour advances |
| SessionView.KeptIndices | castle/Sources/Views/SessionView.swift:316-317 | the indices kept are exactly those below the length and not among the offsets, ascending |
| SessionView.RemoveOffsets | castle/Sources/Views/SessionView.swift:316-317 | the rows left are the rows at the kept indices, in order |
| SessionView.RemoveOffsetsCount | castle/Sources/Views/SessionView.swift:316-317 | removing a set of valid offsets shortens the list by exactly that many |
| SessionView.SessionScreen.constructor | castle/Sources/Views/SessionView.swift:16-32 | the screen starts initializing at zero seconds, unpaused, with no timer, no notes and no transition text |
| SessionView.SessionScreen.EntryReady | castle/Sources/Views/SessionView.swift:451-468 | as written: the entry text, or "Welcome.", and the entry overlay, whatever the state has become meanwhile |
| SessionView.SessionScreen.EntryReadyGuarded | castle/Sources/Views/SessionView.swift:451-468 | corrected: the late text only moves an initializing screen on, so at most one timer ever fires |
| SessionView.SessionScreen.StartTimer | castle/Sources/Views/SessionView.swift:387-393 | schedules one more timer; a timer the field held before keeps firing |
| SessionView.SessionScreen.StopTimer | castle/Sources/Views/SessionView.swift:401-404 | stops the timer the field holds, if any, and clears the field |
| SessionView.SessionScreen.StartActiveSession | castle/Sources/Views/SessionView.swift:470-476 | from the entry overlay: the session becomes active, one more timer fires and the guide greets this room |
| SessionView.SessionScreen.Tick | castle/Sources/Views/SessionView.swift:388-392 | a firing timer counts a second unless paused |
| SessionView.SessionScreen.TogglePause | castle/Sources/Views/SessionView.swift:395-399 | flips the pause flag; the timers keep firing |
| SessionView.SessionScreen.AddObservation | castle/Sources/Views/SessionView.swift:414-418 | the typed note is appended and logged, then the field is cleared |
| SessionView.SessionScreen.DeleteObservations | castle/Sources/Views/SessionView.swift:316-317 | exactly the rows at the offsets are removed, the rest keep their order |
| SessionView.SessionScreen.EndSession | castle/Sources/Views/SessionView.swift:420-449 | when the save succeeds the notes are saved, the exit transition starts and the timer stops; when it throws only `onEnd` is called |
| SessionView.SessionScreen.ExitReady | castle/Sources/Views/SessionView.swift:439-442 | the exit text, or "Session complete.", and the exit overlay |
| SessionView.SessionScreen.FinalizeSession | castle/Sources/Views/SessionView.swift:478-481 | from the exit overlay: the guide stops and `onEnd` is called |
| SessionView.EnterBeforeEntryText | castle/Sources/Views/SessionView.swift:461-476 | as written, entering before the entry text arrives brings the overlay back and entering again leaves two timers firing |
| SessionView.EnterBeforeEntryTextGuarded | castle/Sources/Views/SessionView.swift:461-476 | with the corrected continuation the same steps leave the session active with one timer |
| SessionView.FormattedTime | castle/Sources/Views/SessionView.swift:229-237 | `formattedTime`; `FormattedTimeRounds` and `FormattedTimeShort` state what it shows |
| SessionView.TimeOfDay | castle/Sources/Views/SessionView.swift:483-488 | `getTimeOfDayString`; `TimeOfDayOrdered` proves the bands follow the hours |
| StrategistView.FormatHourShape | castle/Sources/Views/StrategistView.swift:1131-1135 | the picker label shows a clock-face hour in 1..12 congruent to the hour modulo 12, and "AM" exactly before noon |
| StrategistView.FormatHourInjective | castle/Sources/Views/StrategistView.swift:1131-1135 | no two hours of the day share a picker label |
| StrategistView.MasteryColorBands | castle/Sources/Views/StrategistView.swift:712-720 | each colour is used for exactly its band of levels, gray for every level outside 1..10 |
| StrategistView.SummaryHoursWhole | castle/Sources/Views/StrategistView.swift:428 | with non-negative minutes the summary shows the whole hours in the total |
| StrategistView.AverageInRange | castle/Sources/Views/StrategistView.swift:429-430 | with every level in a range the average shown lies in the same range |
| StrategistView.WithId | castle/Sources/Views/StrategistView.swift:469 | keeps exactly the instances with an id, each as often as it occurs |
| StrategistView.SortedByMasteryCorrect | castle/Sources/Views/StrategistView.swift:467-471 | the mastery list holds every saved instance as often as it occurs, none without an id, most minutes first |
| StrategistView.DayBlocks | castle/Sources/Views/StrategistView.swift:342-345 | a column holds exactly the blocks of that day that pass the season filter |
| StrategistView.ColumnsPartition | castle/Sources/Views/StrategistView.swift:340-345 | a block passing the filter shows in the column of its own day and no other; one whose day is outside 1..7 shows nowhere |
| StrategistView.FilterHidesOtherSeasons | castle/Sources/Views/StrategistView.swift:345 | with a season chosen, blocks of another season or of none are hidden |
| StrategistView.WingColorCases | castle/Sources/Views/StrategistView.swift:385-400 | the colour for each combination of the hint's markers, tested in order, and purple when no pair is present or no definition is found |
| StrategistView.LowerCaseHintIsPurple | castle/Sources/Views/StrategistView.swift:389-400 | the markers are case-sensitive: a hint with no capital letter is always purple |
| StrategistView.CreateSession | castle/Sources/Views/StrategistView.swift:958-990 | nothing without a selected instance whose definition is found; otherwise an uncompleted session for that instance and room, with empty notes stored as none |
| StrategistView.CreateBlock | castle/Sources/Views/StrategistView.swift:1137-1154 | nothing without a selected instance whose definition is found; otherwise an active block on the hour for that instance and room, with empty intent stored as none |
| StrategistView.FormatHour | castle/Sources/Views/StrategistView.swift:1131-1135 | `formatHour`; `FormatHourShape` and `FormatHourInjective` state its shape and that it separates hours |
| StrategistView.MasteryColor | castle/Sources/Views/StrategistView.swift:712-720 | `masteryColor`; `MasteryColorBands` states its bands |
| StrategistView.TotalMinutes | castle/Sources/Views/StrategistView.swift:428 | the summed minutes of the saved instances; `SummaryHoursWhole` uses it |
| StrategistView.SummaryHours | castle/Sources/Views/StrategistView.swift:428 | the summary's hours; `SummaryHoursWhole` proves them the whole hours of the minutes |
| StrategistView.AverageLevel | castle/Sources/Views/StrategistView.swift:429-430 | the summary's average level; `AverageInRange` proves it within any bounds all levels respect |
| StrategistView.SortedByMastery | castle/Sources/Views/StrategistView.swift:467-471 | `sortedByMastery`; `SortedByMasteryCorrect` proves it descending and a permutation |
| StrategistView.InSeason | castle/Sources/Views/StrategistView.swift:345 | the season filter; `FilterHidesOtherSeasons` proves other seasons' blocks hidden |
| StrategistView.WingColor | castle/Sources/Views/StrategistView.swift:385-400 | `wingColor(for:)`; `WingColorCases` and `LowerCaseHintIsPurple` state it per marker |
| SeasonProposalView.DayNameCapitalised | castle/Sources/Views/SeasonProposalSheet.swift:148-151 | the sheet's day names are the blocks' short day names in capitals, with "?" off the week |
| SeasonProposalView.FormatTimeAgrees | castle/Sources/Views/SeasonProposalSheet.swift:153-157 | the sheet's hour label is the one a block on that hour shows |
| SeasonProposalView.PrimaryWing | castle/Sources/Views/SeasonProposalSheet.swift:108 | the wing whose raw value is given, the Foundation wing when there is none |
| SeasonProposalView.PrimaryWingOfRaw | castle/Sources/Views/SeasonProposalSheet.swift:108 | every wing's own raw value gives back that wing, so only unknown strings fall back |
| SeasonProposalView.ProposedSeason | castle/Sources/Views/SeasonProposalSheet.swift:103-113 | the new season runs from now to the end date, has the proposal's name and wing, no focus rooms and the description as notes |
| SeasonProposalView.ProposalBlock | castle/Sources/Views/SeasonProposalSheet.swift:120-131 | each block is on the hour, named "Room" when unnamed, active, with no counts, and linked to the new season |
| SeasonProposalView.ProposalBlocks | castle/Sources/Views/SeasonProposalSheet.swift:119-133 | one saved block per proposed block, in order |
| SeasonProposalView.SavedCount | castle/Sources/Views/SeasonProposalSheet.swift:119-133 | fewer blocks are saved than proposed exactly when a save throws before the last one |
| SeasonProposalView.AppliedBlocksInSeasonGrid | castle/Sources/Views/SeasonProposalSheet.swift:120-131 | a saved proposal block shows in the planning grid under the new season's filter, in its proposed day's column |
| SeasonProposalView.ProposalSheet.constructor | castle/Sources/Views/SeasonProposalSheet.swift:3-7 | the sheet starts not applying and not dismissed, with nothing saved |
| SeasonProposalView.ProposalSheet.ApplyStrategy | castle/Sources/Views/SeasonProposalSheet.swift:98-144 | the season is saved first, then the blocks in order until one throws; only full success clears the proposal and dismisses; after a throw `isApplying` is false and what was saved stays |
| SeasonProposalView.DayName | castle/Sources/Views/SeasonProposalSheet.swift:148-151 | `dayName(for:)`; `DayNameCapitalised` proves it the block's short day name up to case, three letters with the same initial |
| SeasonProposalView.FormatTime | castle/Sources/Views/SeasonProposalSheet.swift:153-157 | `formatTime(hour:)`; `FormatTimeAgrees` proves it equal to the block's time string on the hour |
| SeasonDetail.SeasonBlocks | castle/Sources/Views/SeasonDetailView.swift:205-207 | exactly the blocks whose season id equals the season's |
| SeasonDetail.SeasonBlocksMatchGrid | castle/Sources/Views/SeasonDetailView.swift:205-207 | for a saved season, its blocks of a day are the planning grid's column for that day under that season's filter |
| SeasonDetail.Completed | castle/Sources/Views/SeasonDetailView.swift:210-212 | exactly the completed sessions of the season, each as often as stored |
| SeasonDetail.SeasonSessionsCorrect | castle/Sources/Views/SeasonDetailView.swift:209-213 | the log holds every completed session of the season as often as stored and nothing else, latest first |
| SeasonDetail.DurationsPermutation | castle/Sources/Views/SeasonDetailView.swift:215-217 | the summed minutes do not depend on the order of the sessions |
| SeasonDetail.TotalHoursOfSeason | castle/Sources/Views/SeasonDetailView.swift:215-217 | the hours shown are the whole hours of the season's completed sessions, whatever their order |
| SeasonDetail.UiColorMatchesWingColor | castle/Sources/Views/SeasonDetailView.swift:239-250 | every wing's SwiftUI colour is the one its `color` names, so no two wings share one |
| SeasonDetail.SeasonSessions | castle/Sources/Views/SeasonDetailView.swift:209-213 | `seasonSessions`; `SeasonSessionsCorrect` proves it newest first and a permutation of the completed sessions |
| SeasonDetail.TotalHours | castle/Sources/Views/SeasonDetailView.swift:215-217 | `totalHours`; `TotalHoursOfSeason` proves it the truncated minute sum over 60 |
| SeasonDetail.UiColorOf | castle/Sources/Views/SeasonDetailView.swift:239-250 | `Season.Wing.uiColor`; `UiColorMatchesWingColor` proves it matches the colour name and separates the wings |
| InstanceDetail.FormatDurationReadsBack | castle/Sources/Views/InstanceDetailView.swift:592-596 | for a non-negative length the label is the whole minutes, a colon and two digits of seconds that read back to the length, and it equals the player's label |
| InstanceDetail.NextTrack | castle/Sources/Views/InstanceDetailView.swift:259-269 | the button shows exactly for a playlist of one to seven tracks and asks for the track after the last |
| InstanceDetail.NextTrackHasPhase | castle/Sources/Views/InstanceDetailView.swift:259-261 | the requested track is one of tracks 2 to 8 and has its own narrative phase, never the opening |
| InstanceDetail.PaletteCases | castle/Sources/Views/InstanceDetailView.swift:737-762 | the four low/high pairs get their own defaults, any medium level wins over meta, meta applies only with no medium level, and the default arm is never reached |
| InstanceDetail.PalettePrompt | castle/Sources/Views/InstanceDetailView.swift:737-762 | the prefilled instruments and somatic elements are never empty, so the generated prompt carries both clauses |
| InstanceDetail.MoodFor | castle/Sources/Views/InstanceDetailView.swift:733-734 | "serene" exactly when the purpose contains "Rest", else "focused" exactly when it contains "Work", else "contemplative" |
| InstanceDetail.RemoveAll | castle/Sources/Views/InstanceDetailView.swift:697 | the chip's text is gone and every other chip text is kept |
| InstanceDetail.RemoveAfterAdd | castle/Sources/Views/InstanceDetailView.swift:697-717 | adding a chip and then removing it leaves the list as removing alone would |
| InstanceDetail.RemoveAllAppend | castle/Sources/Views/InstanceDetailView.swift:697 | removal works piecewise over a concatenation, keeping the order |
| InstanceDetail.MusicContextEditor.constructor | castle/Sources/Views/InstanceDetailView.swift:608-620 | the editor starts solo, at a moderate tempo, with every text and list empty |
| InstanceDetail.MusicContextEditor.PrefillFromRoom | castle/Sources/Views/InstanceDetailView.swift:727-764 | location and tempo follow the instance's energy only when it has physics; the mood follows the purpose; instruments and somatic elements follow the energy levels; nothing else changes |
| InstanceDetail.MusicContextEditor.AddChip | castle/Sources/Views/InstanceDetailView.swift:714-718 | typed text is appended to its list and the field cleared; empty text changes nothing; the other lists are untouched |
| InstanceDetail.MusicContextEditor.RemoveChip | castle/Sources/Views/InstanceDetailView.swift:696-698 | every chip with that text leaves its list; the other lists and fields are untouched |
| InstanceDetail.MusicContextEditor.Generate | castle/Sources/Views/InstanceDetailView.swift:667-681 | the context carries the fields as edited, an empty arc as none |
| InstanceDetail.PrefillEnablesGenerate | castle/Sources/Views/InstanceDetailView.swift:681-728 | after the prefill Generate is enabled exactly when the instance has physics |
| InstanceDetail.FormatDuration | castle/Sources/Views/InstanceDetailView.swift:592-596 | `formatDuration`; `FormatDurationReadsBack` proves the minutes and seconds read back |
| InstanceDetail.PaletteFor | castle/Sources/Views/InstanceDetailView.swift:737-762 | the palette `switch`; `PaletteCases` and `PalettePrompt` state it case by case |
| InstanceDetail.HighEnergy | castle/Sources/Views/InstanceDetailView.swift:730-731 | `dionysianEnergy.lowercased().contains("high")`; `PrefillFromRoom` uses it for location and tempo |
| InstanceDetail.Instruments | castle/Sources/Views/InstanceDetailView.swift:737-762 | the palette's default instruments; `PalettePrompt` proves they are never empty, so the prompt always carries an instruments clause |
| InstanceDetail.Somatic | castle/Sources/Views/InstanceDetailView.swift:737-762 | the palette's default somatic elements; `PalettePrompt` proves they are never empty, so the prompt always carries a sensations clause |
| InstanceDetail.MusicContextEditor.CanGenerate | castle/Sources/Views/InstanceDetailView.swift:681 | Generate is enabled with a location and a mood; `PrefillEnablesGenerate` states when the prefill enables it |
| Sorting.SortDescending | castle/Sources/Views/StrategistView.swift:470 | `sorted` with a greater-than comparison on one key: the result is ordered by the key, largest first, and is a permutation of the input |
| RoomDetail.EnergyColors | castle/Sources/Views/RoomDetailView.swift:396-412 | each axis gives every energy level its own colour; the axes share only teal, for meta; the Dionysian colours are the definition's energy colours |
| RoomDetail.FrictionSwatchAgrees | castle/Sources/Views/RoomDetailView.swift:507-514 | the card's friction colour is the one the friction level names, one per level |
| RoomDetail.SectionsNeedData | castle/Sources/Views/RoomDetailView.swift:149-214 | the quote, constraint and altar sections show only with something to show; a bare definition shows none and an empty list is hidden like a missing one |
| RoomDetail.Inventory | castle/Sources/Views/RoomDetailView.swift:564 | every item read from the text has no blank at either end |
| RoomDetail.InventoryHasNoComma | castle/Sources/Views/RoomDetailView.swift:564 | no item holds a comma, so the items are what lay between the commas |
| RoomDetail.LeadingCommaDropped | castle/Sources/Views/RoomDetailView.swift:564 | a comma before the text adds only an empty piece, which is dropped |
| RoomDetail.BlankPieceKept | castle/Sources/Views/RoomDetailView.swift:564 | a piece of only a space is kept and trimmed to an empty item, so "a, ,b" gives three items |
| RoomDetail.PiecesOfJoin | castle/Sources/Views/RoomDetailView.swift:629 | cutting the joined inventory at its commas gives the items back, each after the first behind a space |
| RoomDetail.InventoryRoundTrip | castle/Sources/Views/RoomDetailView.swift:628-637 | the inventory shown joined with ", " reads back unchanged when every item is non-empty, comma-free and trimmed |
| RoomDetail.AddInstance | castle/Sources/Views/RoomDetailView.swift:562-570 | the request carries the definition's id, the name as typed and the inventory read from the text |
| RoomDetail.SaveEdit | castle/Sources/Views/RoomDetailView.swift:634-637 | the saved instance has the edited name and the inventory read from the text, and every other field as before |
| RoomDetail.SaveUntouched | castle/Sources/Views/RoomDetailView.swift:628-637 | saving the edit sheet untouched gives back the same instance when its items are clean |
| RoomDetail.DionysianColor | castle/Sources/Views/RoomDetailView.swift:396-403 | `dionysianColor`; `EnergyColors` states it per level |
| RoomDetail.ApollonianColor | castle/Sources/Views/RoomDetailView.swift:405-412 | `apollonianColor`; `EnergyColors` states it per level |
| RoomDetail.FrictionSwatch | castle/Sources/Views/RoomDetailView.swift:507-514 | `frictionColor`; `FrictionSwatchAgrees` proves it agrees with the model's friction colour |
| RoomDetail.EditFields | castle/Sources/Views/RoomDetailView.swift:627-630 | the edit sheet's fields; `InventoryRoundTrip` and `SaveUntouched` prove clean items survive editing |
| RoomDetail.Pieces | castle/Sources/Views/RoomDetailView.swift:564 | the text between commas; `PiecesOfJoin` proves splitting a join gives the pieces back |
| RoomDetail.ShowsEvocative | castle/Sources/Views/RoomDetailView.swift:150 | the quote section's condition; `SectionsNeedData` states a bare definition does not show it |
| RoomDetail.ShowsConstraints | castle/Sources/Views/RoomDetailView.swift:177 | the constraints section's condition; `SectionsNeedData` states an empty list hides it |
| RoomDetail.ShowsAltar | castle/Sources/Views/RoomDetailView.swift:214 | the altar section's condition; `SectionsNeedData` states an empty list hides it |
| Blueprint.FilteredRooms | castle/Sources/Views/BlueprintView.swift:60-68 | every room for an empty search, else exactly the rooms whose name or function contains the text ignoring case |
| Blueprint.FilteredRoomsInOrder | castle/Sources/Views/BlueprintView.swift:60-68 | the rooms shown keep the wing's order |
| Blueprint.FilteredRoomsIdempotent | castle/Sources/Views/BlueprintView.swift:60-68 | filtering an already filtered list by the same text changes nothing |
| Blueprint.FilteredWings | castle/Sources/Views/BlueprintView.swift:45-58 | only wings the selection lets through, and with no selection and no search every wing |
| Blueprint.ListedWingsShowRooms | castle/Sources/Views/BlueprintView.swift:45-68 | with a search, a wing passing the selection is listed exactly when it would show a room; with none, every such wing is listed |
| Blueprint.OnlySelectedWingListed | castle/Sources/Views/BlueprintView.swift:45-58 | with a wing selected no wing of another name is listed |
| Blueprint.WingShortName | castle/Sources/Views/BlueprintView.swift:118-122 | a prefix of the name holding no " (", cut where the first " (" starts, or the whole name without one |
| Blueprint.ShortNameDropsSubtitle | castle/Sources/Views/BlueprintView.swift:118-122 | a name followed by a parenthesised subtitle gives back the name |
| Blueprint.ShortNameIdempotent | castle/Sources/Views/BlueprintView.swift:118-122 | a short name is its own short name |
| Blueprint.BlueprintScreen.constructor | castle/Sources/Views/BlueprintView.swift:10-11 | the screen starts with no search text and no wing selected |
| Blueprint.BlueprintScreen.SelectAll | castle/Sources/Views/BlueprintView.swift:72-89 | the All chip clears the selection, so with no search every wing is listed |
| Blueprint.BlueprintScreen.SelectWing | castle/Sources/Views/BlueprintView.swift:72-89 | a wing's chip selects it, highlights it and not All, and only wings of that name are listed |
| Blueprint.BlueprintScreen.Search | castle/Sources/Views/BlueprintView.swift:10-11 | the search text changes and the selection stays |
| Blueprint.Matches | castle/Sources/Views/BlueprintView.swift:64-67 | the search predicate; `FilteredRooms` keeps exactly the rooms it accepts |
| Blueprint.BlueprintScreen.Wings | castle/Sources/Views/BlueprintView.swift:45-58 | the wings listed; `SelectAll` and `SelectWing` state what each chip lists |
| Blueprint.BlueprintScreen.ChipSelected | castle/Sources/Views/BlueprintView.swift:75-82 | which chip is highlighted; `SelectWing` states the wing's chip is and All is not |

## Left out

- Network, AI and storage I/O: Gemini, ElevenLabs, Cloud Storage and Firestore calls are not modelled; their results (reply text, decoded action, returned id, whether a write throws) are parameters.
- Firestore auto-generated document ids and server timestamps: a document is identified by its position, and timestamps are not stored.
- `callGemini` in functions/src/index.ts (lines 50-91): after the authorization check, rejects a call without a prompt as `invalid-argument` (lines 57-59), sends the prompt (with the image, when one is given) to Gemini and returns its text; a failed Gemini call becomes `HttpsError("internal", …)` (lines 86-89). Not modelled, as everything past the argument check is the Gemini call.
- `diagnoseState` in functions/src/index.ts (lines 97-165): after the authorization check, returns the reply parsed as JSON, or `{diagnosis: <reply text>, recommendedRoomId: null}` when it does not parse (lines 154-159); a failed Gemini call becomes `HttpsError("internal", …)` (lines 160-163). Not modelled, as JSON parsing of a model reply is outside the model.
- `generateAlbumConcept` in functions/src/index.ts (lines 326-401): after the authorization check, rejects a call missing `instanceId`, `musicContext` or `roomName` as `invalid-argument` (lines 333-335), takes the text from the first `{` to the last `}` of the reply and writes `album_concept` and `music_context` to the instance document (lines 377-389); a failed Gemini call, a reply without braces or a failed write becomes `HttpsError("internal", …)` (lines 396-400). Not modelled, as it is request validation and Firestore I/O around the Gemini call.
- functions/lib/index.js: compiled output that has drifted from the TypeScript source; only functions/src/index.ts is modelled.
- JavaScript numbers are modelled as integers: a fractional or out-of-range `trackNumber` and floating-point precision are not modelled, nor is the wording of internal error messages.
- The extractor's `\d` and the Navigator's digit scan accept ASCII digits only; Python and Swift also accept other Unicode decimal digits.
- Swift `lowercased()` and `localizedCaseInsensitiveContains` are modelled as ASCII case folding, without Unicode or locale rules.
- Extractor.SectionStart, Extractor.Section and Extractor.SectionHeadingEnd: Python's `re.IGNORECASE` (scripts/extract_room_data.py:21) is modelled as ASCII lower-casing, so headings that match only under Unicode folding (the long s `ſ` against `s`, the dotless `ı` against `i`, the Kelvin sign against `k`) are not found by the model.
- Merge.UpdateWing and Merge.UpdateWings: require every room to carry a `number`; Merge.UpdateRoomsData checks this first and returns `MissingNumber`, which models the `KeyError` at scripts/extract_room_data.py:139 that ends the script before the output file is written. The rooms the script already updated in memory before the error are not observable and are not modelled.
- Engineer.EngineerService.SendMessage, Engineer.EngineerService.HandleText, Engineer.ReplyEffect, Engineer.TextEffect, AgentJson.ExtractJson, Strategist.StrategistService.SendMessage, Strategist.StrategistService.HandleText, Strategist.ReplyEffect, Strategist.StructuredReply, Guide.RoomGuideService.SendMessage, Guide.RoomGuideService.Exchange, Guide.RoomGuideService.HandleText, Guide.ReplyMessages, Guide.ReplyWrite, Guide.ReplyShape and Guide.StructuredReply: require `AgentJson.Extractable` of the reply text. A reply whose last `}` comes before its first `{`, such as `Done} see {`, makes `text[start...end]` trap in `extractJSON` (castle/Sources/Services/EngineerService.swift:433-440, used at line 113; the same helper is at RoomGuideService.swift:298 and StrategistService.swift:383), which crashes the app; the crash is not modelled, so these members admit only replies where it does not happen.
- Engineer.HealthMessage, Engineer.ActionEffect and Engineer.EngineerService.ExecuteAction: `Int(health * 100)` (castle/Sources/Services/EngineerService.swift:203) traps when the product lies outside Swift's 64-bit `Int` range, so a reply such as `{"type":"update_health","health":1e17}` crashes the app; the model's truncation is unbounded and returns a message instead.
- Engineer.ActionEffect and Engineer.EngineerService.ExecuteAction: announce a health update with the value received, as written; Engineer.StoredHealthMessage is the corrected reply and is proved separately rather than used by the service.
- Python's `glob` order, `json.load`/`json.dump` formatting and key order, and the script's fixed paths are left to the caller of the merge: `json.dump` writes a dictionary's keys in insertion order, so a merged room keeps its keys in place and new spec keys come last, while the model's `map` has no key order.
- Engineer.HealthMessageOverstates: the percentage is computed with exact reals; Swift's `Double` product can fall just below a whole number and show one less.
- Music.MusicService.LoadTrack: a track whose URL does not parse leaves the old player paused and unreplaced in the source; the model records the track as loaded.
- MusicService playback: AVPlayer, the audio session, the time observer, seeking, `isLoading` and the download fan-out are not modelled; `currentTime` is an input.
- MusicService end-of-track notifications (castle/Sources/Services/MusicService.swift:91-95): every `loadTrack` subscribes once more to `AVPlayerItemDidPlayToEndTime` with no `object:` filter and keeps the earlier subscriptions, so after k loads one track end calls `playNext` k times; the model has no notifications and moves one track per `PlayNext` call.
- The literal wording of every system prompt and of the Navigator's prompt headings beyond what the lemmas state is not behaviour and is not modelled.
- EngineerService `generateInstance`, `diagnoseFriction` and `suggestLocations`: prompt wrappers around the Gemini call whose only effect is the reply text.
- StrategistService `planWeek` and `analyzeSchedule`: prompt wrappers around the Gemini call whose only effect is the reply text.
- RoomGuideService `generateTransition`: a prompt wrapper; the transition text is an input of the session screen.
- RoomGuideService image attachments: the JPEG payload is not modelled, only whether an image is attached.
- Swift strings are modelled as sequences of Unicode scalars, while Swift's `Character` is a grapheme cluster and `String` comparison uses canonical equivalence; the members below differ from the source on text where a combining mark follows the character they look for, or where several scalars form one character.
- Navigator.SeasonLines: `notes.prefix(100)` (castle/Sources/Services/NavigatorService.swift:180) keeps 100 Characters; the model keeps 100 scalars, so with decomposed accents, flags or skin-tone emoji it cuts the notes shorter.
- AgentJson.FirstIndex: `firstIndex(of: "{")` (castle/Sources/Services/EngineerService.swift:434) matches a whole Character, so a `{` followed by a combining mark is not found in Swift; the model finds it.
- AgentJson.LastIndex: `lastIndex(of: "}")` (castle/Sources/Services/EngineerService.swift:435) likewise skips a `}` followed by a combining mark; the model finds it.
- RoomDetail.Pieces: `split(separator: ",")` (castle/Sources/Views/RoomDetailView.swift:564) does not split at a `,` followed by a combining mark; the model splits there.
- Instances.IsStepKey and the Instances decoder (Instances.Decode, Instances.StepValues): `hasPrefix("step_")` (castle/Sources/Models/RoomInstance.swift:123) compares Characters, so a key such as "step_" followed by a combining acute accent and "1" is not a step key in Swift; the model treats it as one.
- Emoji in replies are modelled by their code points. The Navigator's separator between recent rooms is a mis-encoded arrow in the source file; it is kept as the three characters stored there.
- Calendar and `DateFormatter` behaviour: the end date of a proposed season, combining a date with a time, ISO-8601 parsing and date labels are inputs; `Season.durationDays` is not modelled.
- Swift's `sorted(by:)` is not stable, so the order among equal keys is left unspecified rather than modelled.
- The Swift declarations of `MusicContext` and `SceneSetting` are not part of this model; the editor builds the context the `generateTrack` function receives.
- `RoomTrap`, `AltarItem`, `ItemStatus` and the view-only `RoomInstance` fields (`totalMinutes`, `masteryLevel`, `playlist`, `masteryDimensions`) are declared outside the modelled sources; they are given the shape the code reads.
- SessionView `sendMessage` forwards to the Room Guide, whose model is in `Guide`; the embedded music player and the chat sheet are not modelled.
- SessionView: two taps on Complete start two `endSession` tasks in the source; task interleaving beyond the entry-text race is not modelled.
- SessionView.SessionScreen.StartActiveSession: the session can start from `initializing` too, because the entry overlay and its button show in both states; the model follows the code rather than a single source state.
- Progress ratios, radar charts, the `FlowLayout` and the familiarity thresholds are floating-point or geometry code and are not modelled.
- The pure UI files (CompassView, ContentView, CastleApp, RoomTransitionView, RoomCardView, WorkshopView) hold no logic beyond layout and are not modelled.
- FirebaseManager's authentication and Firestore plumbing is not part of this model; its "one active room" outcome depends on remote writes.
- The blueprint header's room count, the Seed Rooms toolbar button and the season picker labels are layout and are not modelled.
- The week grid's colours for the observatory and forum wings fall back to purple in the source; this is modelled as written, without a finding, as the colour is a display choice.

## Findings

| source | as written | input that shows it | evidently intended | confidence | as-written member | corrected member |
|---|---|---|---|---|---|---|
| castle/Sources/Models/RoomInstance.swift:117-126 | steps are appended in the order the container lists the keys, which Foundation does not specify | a container listing `step_2` before `step_1` decodes the two steps swapped | steps in the order of their numbers, so decoding an encoded liturgy gives it back | not executed | Instances.DecodeFollowsContainerOrder | Instances.RoundTripInOrder |
| castle/Sources/Services/EngineerService.swift:200-203 | the health is stored clamped but the reply reports the unclamped value | a health of 1.5 is stored as 1.0 and announced as 150% | the reply shows the stored percentage, between 0 and 100 | not executed | Engineer.HealthMessageOverstates | Engineer.StoredHealthMessageInRange |
| castle/Sources/Views/SessionView.swift:461-465 | the entry text's continuation shows the entry overlay whatever the state has become | tapping continue before the entry text arrives, then again after it, leaves two timers counting, so time runs double | the late text only moves a screen that is still initializing, so one timer runs | not executed | SessionView.EnterBeforeEntryText | SessionView.EnterBeforeEntryTextGuarded |
