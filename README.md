# Tutorial pager of the TypeScript tutorial page

This project models the tutorial pager of the `TypeScriptTutorial` component.
The page holds a fixed table of six lessons and one cursor, `currentSection`, that selects the lesson shown.
The "Next" button moves the cursor forward and wraps from the last lesson to the first.
The "Previous" button moves it back and wraps from the first lesson to the last.
From the cursor the page derives the current lesson, a difficulty badge and its colour, the "Section k of n" label and the fill of the progress bar.

Everything is in `tutorial.dfy`, module `Tutorial`:

- `TutorialSection` and `Difficulty` are datatypes for the lesson record and the badge enum.
- `TUTORIAL_SECTIONS` is the lesson table with the source's ids, titles and descriptions.
- `GetDifficultyBadge`, `BadgeColor`, `NextSection` and `PrevSection` are the pure expressions of the component.
- `NextTimes` and `PrevTimes` give the cursor after k clicks. They exist to state the wrap-around laws.
- Class `TypeScriptTutorial` holds the React state cell `currentSection` as a field. `Valid()` is the invariant `0 <= currentSection < 6`. The two button handlers are methods that keep it. The derived views are functions that read the field.
- `ClickThrough` is a client that opens the page and clicks through it, checking the lesson, badge, colour, label and fill it sees along the way.

## Model

| member | source | states |
|---|---|---|
| `Tutorial.SectionIdsFollowTableOrder` | src/components/TypeScriptTutorial.tsx:23-212 | the table has six lessons, and the lesson at index i has id i + 1 |
| `Tutorial.GetDifficultyBadge` | src/components/TypeScriptTutorial.tsx:215-219 | Beginner exactly for index < 2, Intermediate exactly for index 2, Advanced exactly for index >= 3 |
| `Tutorial.BadgeMonotone` | src/components/TypeScriptTutorial.tsx:12-16 | the badge never gets easier as the index grows, in the order Beginner < Intermediate < Advanced |
| `Tutorial.BadgeCountsPartition` | src/components/TypeScriptTutorial.tsx:215-219 | every lesson gets exactly one of the three badges: the three counts over the first n lessons add up to n |
| `Tutorial.BadgeDistribution` | src/components/TypeScriptTutorial.tsx:215-219 | over the six lessons, two are Beginner, one is Intermediate and three are Advanced |
| `Tutorial.BadgeColor` | src/components/TypeScriptTutorial.tsx:261-262 | Beginner is shown in `#4CAF50`, Intermediate in `#FF9800` and Advanced in `#f44336` |
| `Tutorial.BadgeColorDistinguishes` | src/components/TypeScriptTutorial.tsx:261-262 | two badges have the same colour exactly when they have the same difficulty |
| `Tutorial.NextSection` | src/components/TypeScriptTutorial.tsx:223-225 | from a valid cursor, Next gives a valid cursor equal to (cursor + 1) mod length |
| `Tutorial.PrevSection` | src/components/TypeScriptTutorial.tsx:229-231 | from a valid cursor, Previous gives a valid cursor equal to (cursor - 1) mod length |
| `Tutorial.NextPrevInverse` | src/components/TypeScriptTutorial.tsx:222-232 | Previous after Next, and Next after Previous, give back the original cursor |
| `Tutorial.NextTimesRotates` | src/components/TypeScriptTutorial.tsx:222-226 | k clicks on Next move a valid cursor to (cursor + k) mod length |
| `Tutorial.NextCycle` | src/components/TypeScriptTutorial.tsx:222-226 | as many clicks on Next as there are lessons return to the starting cursor |
| `Tutorial.PrevTimesUndoesNextTimes` | src/components/TypeScriptTutorial.tsx:222-232 | k clicks on Next keep the cursor valid, and k clicks on Previous then return to the start |
| `Tutorial.TypeScriptTutorial.constructor` | src/components/TypeScriptTutorial.tsx:20 | the page opens with the cursor at 0, a valid index |
| `Tutorial.TypeScriptTutorial.HandleNextSection` | src/components/TypeScriptTutorial.tsx:222-226 | keeps the cursor valid; from the last index it goes to 0, otherwise to cursor + 1 |
| `Tutorial.TypeScriptTutorial.HandlePrevSection` | src/components/TypeScriptTutorial.tsx:228-232 | keeps the cursor valid; from 0 it goes to the last index, otherwise to cursor - 1 |
| `Tutorial.TypeScriptTutorial.CurrentTutorial` | src/components/TypeScriptTutorial.tsx:234 | the lesson shown is always defined, is in the table, and has id cursor + 1 |
| `Tutorial.TypeScriptTutorial.CurrentDifficulty` | src/components/TypeScriptTutorial.tsx:235 | the badge shown is Beginner for lessons 1-2, Intermediate for lesson 3 and Advanced for lessons 4-6 |
| `Tutorial.TypeScriptTutorial.ProgressLabel` | src/components/TypeScriptTutorial.tsx:252 | "Section k of n" has n = 6 and k equal to the shown lesson's id, with 1 <= k <= n |
| `Tutorial.TypeScriptTutorial.ProgressFraction` | src/components/TypeScriptTutorial.tsx:247 | the filled fraction (cursor + 1) / length lies in (0, 1] and is 1 exactly on the last lesson |

## Left out

- The code samples of the lessons (`codeExample`) are display text. The table keeps the field but holds empty strings in it.
- The progress bar is modelled as an exact rational fraction. The source uses a floating-point number times 100, formatted into a CSS width string.
- The JSX markup, the `styles` table and the wiring of the buttons are presentation only.
- React's `useState` is modelled as a plain field. Each click is one sequential update, and React's update batching is not modelled.
- The cursor is an unbounded integer. The source uses a JavaScript number, but the cursor only takes the values 0 to 5.
- `src/components/TypeScriptClass.tsx` is not part of this model. Its only behaviour is two `setState` calls on mount, and their outcome depends on React's merging and batching rules.
- `src/components/TypeScriptFunctional.tsx` is not part of this model. Its only behaviour is an effect that replaces a record, and whether that effect fires again depends on React's change detection.
- `src/App.test.tsx` is not part of this model. It is a rendering smoke test.
