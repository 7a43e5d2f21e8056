# Step wizard of the transformer walkthrough, in Dafny

This project models the logic of a single-page lesson that walks a reader
through the five stages of a transformer's forward pass: tokenization,
embedding, self-attention, feed-forward and prediction. The only real state
is the lesson navigation controller (`StepProvider`). It holds the current
step index beside fixed lesson content: the sentence "The cat sat on the",
the target word "mat" and five steps. The model also covers the displays
derived from that index:

- the navigation bar (disabled buttons, one active dot);
- the dispatch table from step index to view;
- the architecture strip (one highlighted stage, arrow geometry).

Each view also has a small local selector, and those are modelled too:

- the formula carousel of the prediction view;
- the selected token of the attention view;
- the active layer of the feed-forward view;
- the hovered token of the tokenization view;
- the expand/collapse toggle of a section.

There is one Dafny module per source file. `Common` holds what they share:

- `Option` and `Result`;
- `CountTrue` and `OnlyAt`, with the lemmas that "only flag k is set" means "exactly one flag is set";
- `Present`, the way a rendered list drops the children that render `null`.

Each piece of mutable state is a class. Its fields are the component's state
variables. Its methods are the event handlers, each with `modifies` and an
`ensures` that gives the new state. Each derived display is a function of
that state. Lemmas prove the "exactly one is active" and "shown iff" rules
about those functions.

Modelling decisions:

- **The raw setter does not clamp.** `setCurrentStep` is React's raw state
  setter, so `StepProvider.SetCurrentStep` stores its argument verbatim. Its
  contract says the range invariant holds afterwards exactly when the
  argument was in range. An out-of-range argument would be stored as it is
  (a call with 10 would leave the step at 10, not 4). The only caller of the
  setter is a dot click, and dots exist only for the indices 0..4.
  `StepNavigation.ClickDot` therefore discharges the obligation.
- **Clicks on disabled buttons.** A disabled `<button>` fires no click
  handler. `ClickPrev`, `ClickNext`, `ClickBack` and `ClickForward` model
  that guard. Their contracts show that the guard never changes the
  outcome: the button is disabled exactly when pressing it would change
  nothing (`PrevDisabled`, `NextDisabled`, `BackDisabled`,
  `ForwardDisabled`).
- **JavaScript truthiness.** A section renders its formula under
  `formula && …`, so an empty formula string renders nothing
  (`Section.FormulaShown`). The info panel tests `hoveredToken !== null`,
  so hovering the token at position 0 does show the panel.
- **A missing view.** A lookup of a step index with no view gives no
  component, which React cannot render. `Page.StepContent` returns `None`
  for such an index.

## Model

| member | source | states |
|---|---|---|
| `Common.Present` | components/ModelArchitecture.tsx:100-107 | A rendered list shows at most as many children as it has slots, and each shown child comes from a non-null slot |
| `StepContext.LessonContent` | context/StepContext.tsx:20-23 | The sentence has 5 tokens, as many as there are steps; the target word is "mat" and does not occur in the sentence |
| `StepContext.JoinWordsAppend` | context/StepContext.tsx:20-22 | Joining one more word onto a non-empty word list appends one space and that word |
| `StepContext.CompleteSentenceIsSentencePlusTarget` | context/StepContext.tsx:20-22 | The complete sentence equals the sentence tokens and the target word joined by single spaces, that is, the joined sentence plus " " plus the target word |
| `StepContext.SaturatingNext` | context/StepContext.tsx:25-27 | `min(prev + 1, last)`: never exceeds `last`; advances by one below `last`; leaves `last` unchanged; pulls a larger index back to `last` |
| `StepContext.SaturatingPrev` | context/StepContext.tsx:29-31 | `max(prev - 1, 0)`: never negative; goes back one above 0; leaves 0 unchanged; pulls a negative index up to 0 |
| `StepContext.NextPrevUndo` | context/StepContext.tsx:25-31 | Away from the boundaries, "previous" undoes "next" and "next" undoes "previous" |
| `StepContext.NextTimesSaturates` | context/StepContext.tsx:25-27 | k presses of "next" from any index at or below the last step land on `min(n + k, last)` |
| `StepContext.PrevTimesSaturates` | context/StepContext.tsx:29-31 | k presses of "previous" from any non-negative index land on `max(n - k, 0)` |
| `StepContext.WalkThroughLesson` | context/StepContext.tsx:23-31 | From step 0, five presses of "next" visit 1, 2, 3, 4, 4; from step 4, five presses of "previous" visit 3, 2, 1, 0, 0 |
| `StepContext.StepProvider.constructor` | context/StepContext.tsx:19 | The current step starts at 0, inside the range invariant |
| `StepContext.StepProvider.SetCurrentStep` | context/StepContext.tsx:19 | Stores the given step verbatim, without clamping; the range invariant holds afterwards iff the argument was in 0..4 |
| `StepContext.StepProvider.NextStep` | context/StepContext.tsx:25-27 | The new step is `min(old + 1, totalSteps - 1)`, and the range invariant is preserved |
| `StepContext.StepProvider.PrevStep` | context/StepContext.tsx:29-31 | The new step is `max(old - 1, 0)`, and the range invariant is preserved |
| `StepContext.StepProvider.Value` | context/StepContext.tsx:33-43 | The provider value carries the live current step and the fixed sentence, target word, complete sentence and step count |
| `StepContext.UseStep` | context/StepContext.tsx:49-55 | Fails with the "must be used within a StepProvider" message exactly when no provider value is present; otherwise returns that value unchanged |
| `StepNavigation.PrevDisabled` | components/StepNavigation.tsx:16 | "Previous" is disabled exactly when `prevStep` would leave the step unchanged; in range, that is exactly at step 0 |
| `StepNavigation.NextDisabled` | components/StepNavigation.tsx:42 | "Next" is disabled exactly when `nextStep` would leave the step unchanged |
| `StepNavigation.DotIndices` | components/StepNavigation.tsx:24 | There are exactly `totalSteps` dots, the dot at position i has index i, and the indices are exactly 0..totalSteps-1 |
| `StepNavigation.DotFlags` | components/StepNavigation.tsx:24-31 | One flag per step; the dot at position i is active iff i is the current step, so an in-range step has only its own dot active |
| `StepNavigation.ExactlyOneDotActive` | components/StepNavigation.tsx:24-31 | For an in-range step, the dot at that step is the only active dot, so exactly one dot is active |
| `StepNavigation.NoDotActiveOutOfRange` | components/StepNavigation.tsx:27-31 | For an out-of-range step, no dot is active |
| `StepNavigation.ClickPrev` | components/StepNavigation.tsx:15-16 | The "previous" button, whether enabled or disabled, leaves the step at `max(old - 1, 0)` and keeps the invariant |
| `StepNavigation.ClickNext` | components/StepNavigation.tsx:41-42 | The "next" button, whether enabled or disabled, leaves the step at `min(old + 1, 4)` and keeps the invariant |
| `StepNavigation.ClickDot` | components/StepNavigation.tsx:24-33 | Clicking dot i sets the step to i; since dots exist only for 0..4, the provider stays valid and the clicked dot becomes active |
| `Page.LessonPosition` | app/page.tsx:13-17 | Every view has a lesson position in 0..4 |
| `Page.StepContent` | app/page.tsx:20-22 | A view is selected iff the step is in 0..4, and the selected view's lesson position is that step |
| `Page.DispatchTableKeys` | app/page.tsx:12-18 | The table's keys are exactly the in-range steps, and there are `totalSteps` of them |
| `Page.EveryViewReachable` | app/page.tsx:12-18 | Each view is selected by its own position and by no other index (0 Tokenization, 1 Embedding, 2 Attention, 3 FeedForward, 4 Prediction) |
| `Page.ShowAfterSet` | app/page.tsx:20-22 | Setting the same in-range step twice selects the same view both times, and that view is the one at that step |
| `ModelArchitecture.StageIdsContiguous` | components/ModelArchitecture.tsx:6-74 | The stage table has 5 entries, with ids 1..5 in list order, all distinct |
| `ModelArchitecture.HighlightFlags` | components/ModelArchitecture.tsx:112-130 | One flag per stage; the stage at list position i is highlighted iff i is the current step, so an in-range step highlights only its own stage |
| `ModelArchitecture.ExactlyOneStageHighlighted` | components/ModelArchitecture.tsx:112-130 | For step 0..4, the stage at list position `currentStep` is the only one with `id == currentStep + 1`, so exactly one stage is highlighted |
| `ModelArchitecture.NoStageHighlightedOutOfRange` | components/ModelArchitecture.tsx:116 | For an out-of-range step, no stage is highlighted |
| `ModelArchitecture.ArrowAt` | components/ModelArchitecture.tsx:100-107 | Stage i of n gets an arrow iff it is not the last stage; every arrow spans one 100-unit gap and starts at or right of x = 100 |
| `ModelArchitecture.ArrowsDrawn` | components/ModelArchitecture.tsx:100-107 | No more arrows than stages, and every drawn arrow starts at or right of x = 100 and spans one 100-unit gap |
| `ModelArchitecture.ArrowGeometry` | components/ModelArchitecture.tsx:100-107 | A strip of n stages draws n-1 arrows; arrow i runs from `100 + 100*i` to `200 + 100*i`; each arrow ends where the next one starts |
| `ModelArchitecture.ArrowsInsideViewBox` | components/ModelArchitecture.tsx:94-107 | The strip's 4 arrows all lie within the 0..500 viewBox, each running left to right |
| `PredictionStep.OnlyTargetIsCorrect` | components/steps/PredictionStep.tsx:15-20 | Exactly one candidate is flagged correct, the first, and its token is the lesson's target word |
| `PredictionStep.MathStepNumbers` | components/steps/PredictionStep.tsx:22-38 | There are 3 formula steps, and entry i carries badge number i+1 |
| `PredictionStep.BackDisabled` | components/steps/PredictionStep.tsx:136 | The back button is disabled exactly when `max(0, prev - 1)` would change nothing |
| `PredictionStep.ForwardDisabled` | components/steps/PredictionStep.tsx:148 | The forward button is disabled exactly when `min(length - 1, prev + 1)` would change nothing |
| `PredictionStep.StepLabel` | components/steps/PredictionStep.tsx:142-144 | The label "Step k of n" has n = 3, and in range k equals the badge number of the displayed formula step |
| `PredictionStep.CurrentMathStep` | components/steps/PredictionStep.tsx:163-173 | The displayed formula step is an entry of the table, and its badge number agrees with the label |
| `PredictionStep.MathDotFlags` | components/steps/PredictionStep.tsx:176-187 | One flag per formula step; for an in-range position only that position's dot is active, otherwise no dot is |
| `PredictionStep.ExactlyOneMathDotActive` | components/steps/PredictionStep.tsx:176-187 | For an in-range position, exactly one dot is active, the one at that position |
| `PredictionStep.MathCarousel.constructor` | components/steps/PredictionStep.tsx:12 | The carousel starts at the first formula step, inside its range |
| `PredictionStep.MathCarousel.ClickBack` | components/steps/PredictionStep.tsx:133-136 | The back button, whether enabled or disabled, leaves the position at `max(0, old - 1)` and keeps it in range |
| `PredictionStep.MathCarousel.ClickForward` | components/steps/PredictionStep.tsx:145-148 | The forward button, whether enabled or disabled, leaves the position at `min(2, old + 1)` and keeps it in range |
| `PredictionStep.MathCarousel.ClickDot` | components/steps/PredictionStep.tsx:177-180 | Dot i sets the position to i, which stays in range |
| `AttentionStep.ScoreMatrixMatchesSentence` | components/steps/AttentionStep.tsx:15-21 | The score matrix has one row per sentence token, and every row has one score per token |
| `AttentionStep.ScoreRow` | components/steps/AttentionStep.tsx:69-86 | The row for a selected token has one score per token, every score is a valid opacity in [0, 1], and the token's score for itself is 1 |
| `AttentionStep.RingFlags` | components/steps/AttentionStep.tsx:50-56 | One flag per token card; for a selection inside the sentence only the selected card has the ring, otherwise no card has it |
| `AttentionStep.ExactlyOneRing` | components/steps/AttentionStep.tsx:50-56 | For a selection inside the sentence, exactly one token card has the ring, the selected one |
| `AttentionStep.TokenSelector.constructor` | components/steps/AttentionStep.tsx:12 | The selection starts at token 0 |
| `AttentionStep.TokenSelector.ClickToken` | components/steps/AttentionStep.tsx:56 | Clicking card i selects token i and keeps the selection inside the sentence; nothing else changes |
| `AttentionStep.TokenSelector.ShownScores` | components/steps/AttentionStep.tsx:86 | In every valid state, the displayed row is the selected token's row of the score matrix: one score per token, with the selected token scored 1 |
| `FeedForwardStep.CardPosition` | components/steps/FeedForwardStep.tsx:61 | Every layer has a card position, and the card at that position is that layer |
| `FeedForwardStep.CardsCoverLayers` | components/steps/FeedForwardStep.tsx:21-37 | The cards are input, hidden, output: each layer once, each with an entry in `layerInfo` |
| `FeedForwardStep.RingFlags` | components/steps/FeedForwardStep.tsx:61-67 | One flag per card; only the active layer's card has the ring |
| `FeedForwardStep.ExactlyOneRing` | components/steps/FeedForwardStep.tsx:61-67 | Exactly one card has the ring, the active layer's |
| `FeedForwardStep.ExplanationParts` | components/steps/FeedForwardStep.tsx:106-110 | Of the three conditional sentences, the active layer's renders non-empty text and the other two render the empty string |
| `FeedForwardStep.ShownParts` | components/steps/FeedForwardStep.tsx:106-110 | Only the active layer's sentence is shown |
| `FeedForwardStep.ExactlyOneExplanation` | components/steps/FeedForwardStep.tsx:106-110 | Of the three conditional sentences, exactly one renders text, the active layer's |
| `FeedForwardStep.LayerSelector.constructor` | components/steps/FeedForwardStep.tsx:12 | The active layer starts as input |
| `FeedForwardStep.LayerSelector.ClickCard` | components/steps/FeedForwardStep.tsx:67 | Clicking a card makes that card's layer active |
| `TokenizationStep.ColorsCoverSentence` | components/steps/TokenizationStep.tsx:12-19 | There are 6 colours, at least one per sentence token, and no two tokens share a colour |
| `TokenizationStep.InfoPanel` | components/steps/TokenizationStep.tsx:64-75 | The panel is shown iff a token is hovered (including position 0); it shows the hovered position and a token id one above it |
| `TokenizationStep.HoverState.constructor` | components/steps/TokenizationStep.tsx:10 | Nothing is hovered initially |
| `TokenizationStep.HoverState.HoverStart` | components/steps/TokenizationStep.tsx:49 | Hovering card i records i |
| `TokenizationStep.HoverState.HoverEnd` | components/steps/TokenizationStep.tsx:50 | Leaving a card resets the hover to nothing |
| `TokenizationStep.HoverState.Panel` | components/steps/TokenizationStep.tsx:64-73 | In a valid state, the rendered panel is the info panel of the hovered token: shown iff a token is hovered, with that position and token id position + 1, which lies in 1..5 |
| `Section.FormulaShown` | components/Section.tsx:42 | The formula block renders iff a formula is given and it is non-empty (JavaScript truthiness of a string) |
| `Section.RenderTable` | components/Section.tsx:54-81 | One header cell per header in order, one body row per data row, and each row's cells are that row's entries |
| `Section.Render` | components/Section.tsx:42-83 | The formula block is shown iff a non-empty formula is given, whatever the expansion; the table is shown iff the section is expanded and table data is given |
| `Section.OneCellPerEntry` | components/Section.tsx:67-79 | The body renders exactly as many cells as the data has entries |
| `Section.ExpansionOnlyAffectsTable` | components/Section.tsx:42-48 | Toggling the expansion never changes the formula block, and a collapsed section shows no table |
| `Section.SectionState.constructor` | components/Section.tsx:20-21 | A section starts collapsed and keeps its formula and table data |
| `Section.SectionState.ClickHeader` | components/Section.tsx:30-31 | A header click flips the expansion |
| `Section.SectionState.View` | components/Section.tsx:42-83 | The table is shown iff the section is expanded and has table data, and then it is the rendering of that data; the formula is shown iff it is non-empty |
| `Section.ClickHeaderTwice` | components/Section.tsx:31 | Two header clicks restore the original expansion and the original view |

## Left out

- EmbeddingStep is not part of this model. Its only computation adds sample floating-point vectors and formats them with `toFixed(2)`.
- Animation is not modelled: framer-motion props, `AnimatePresence` transitions, delays and hover scaling only affect presentation.
- KaTeX typesetting, SVG icons and CSS class strings are not modelled. Only the active, disabled and highlighted flags that the class strings encode are kept.
- Floating-point display math is not modelled: the attention colour and `0.8 + score*0.4` scale, the probability bar widths and percentages, and the feed-forward sample vectors. The score matrix and probabilities are kept as constant `real` tables.
- React's context, hooks and re-rendering are modelled as explicit objects, fields and method calls. The provider is passed to the navigation handlers by reference.
- Several sections, dots or cards exist side by side in the source. Each one is modelled as its own object or index, with no aliasing between them.
- A section's title, description and `index` prop are not modelled. They only feed text and an animation delay.
- StepContext.StepProvider.SetCurrentStep: does not clamp out-of-range arguments. This is deliberate: the code has no clamp. Its contract instead states when the range invariant holds.
