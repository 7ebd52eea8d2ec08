# Blockchain Summit LATAM sales toolkit: journey map, script form and prompt service

This project models the three pieces of the sales-training app that hold logic:

- **The customer-journey map** (`components/CustomerJourneyTab.tsx`). It has four parts:
  - A 13-stage touchpoint table is placed on a wave. Each stage's height comes from its mood, and the LinkedIn e-mail ask (id 8) sits 70 units lower.
  - Cubic curves join the stages into an entry path, an e-mail branch, a LinkedIn branch and a tail. An arrow leads from the LinkedIn ask back to the overview e-mail.
  - A details card is chosen by the selected stage's id.
  - Two state variables, the selected stage and the highlighted animation step, are changed by click, reset and an animation that registers one timer per stage.
- **The script-generator form** (`components/ScriptGeneratorTab.tsx`). It holds seven form fields, the shown script and a loading flag. It has the change, generate and copy handlers and the two buttons' disabled conditions.
- **The script service** (`services/geminiService.ts`). It composes the prompt from the seven form values, sends one request to the language model, and turns the answer into the script: the trimmed text, or a fixed apology.

Files:

- `wrappers.dfy` holds `Option`.
- `gemini_service.dfy` holds the prompt text, JavaScript's `trim`, and the request/answer wrapper.
- `journey_layout.dfy` holds the table, the heights, the stage lookup, the curves, the paths and the arrow.
- `journey_details.dfy` holds the details-card dispatch.
- `journey_selection.dfy` holds the selection state, the timer queue, and the radius and stroke rule.
- `script_generator.dfy` holds the form as a class.

How the moving parts are modelled:

- **The language model** is a function parameter `ModelRequest -> Reply`. A reply either carries text (which the SDK may leave undefined) or the call fails.
- **The form's own call** is split at the `await`. `BeginGenerate` runs up to the call and returns the call it makes. `CompleteGenerate` takes how the call ended. `HandleGenerateWith` joins both around the service itself.
- **The browser's timer queue** is a field of the journey view: a list of (due time, action) entries, with a clock field beside it. Time passes in two ways: `Wait` moves the clock forward but not past the next due entry, and `FireNext` moves it to the earliest due entry and runs that entry. Among equal due times the first registered fires, as `setTimeout` does.
- **Coordinates** are exact `real`s. The table's x values are integers.

Where the code does something other than one might expect, the model follows the code:

- Form validation tests the contact name and company for emptiness **without trimming**, so blank values pass (`components/ScriptGeneratorTab.tsx:49`).
- A click on a stage **leaves the highlighted animation step as it is** (`components/CustomerJourneyTab.tsx:686-688`).
- Reset **does not cancel** the callbacks that a running animation has registered. They still fire and select stages again; `ResetMidAnimation` shows this (`components/CustomerJourneyTab.tsx:690-704`).
- The LinkedIn wait directive is in **every** prompt, whatever the platform and message type (`services/geminiService.ts:42`).

## Model

| member | source | states |
|---|---|---|
| GeminiService.SkipSpaces | services/geminiService.ts:58 | the index where `trim`'s result starts: everything skipped is white space, and the character there is not |
| GeminiService.SkipSpacesBack | services/geminiService.ts:58 | the index where `trim`'s result ends: everything skipped back over is white space, and the character before it is not |
| GeminiService.Trim | services/geminiService.ts:58 | `trim` gives an infix of the input with only white space around it, and neither end of it is white space |
| GeminiService.TrimOfTrimmed | services/geminiService.ts:58 | a string without surrounding white space is its own trim |
| GeminiService.TrimIdempotent | services/geminiService.ts:58 | trimming the script again changes nothing |
| GeminiService.BulletsContain | services/geminiService.ts:22-29 | each detail written on a "- " line is in the text of the list |
| GeminiService.PromptContainsItem | services/geminiService.ts:22-29 | each of the five detail lines is in the prompt |
| GeminiService.PromptContainsDetails | services/geminiService.ts:22-29 | all five detail lines are in the prompt |
| GeminiService.BulletsItemsAt | services/geminiService.ts:23-28 | the list text holds each detail as a whole line "\n- " + detail, the lines one after another in the given order, wherever the list is put |
| GeminiService.FramedItemsAt | services/geminiService.ts:22-29 | between a heading and a tail, the detail lines still sit one after another, starting right after the heading |
| GeminiService.BulletsBetween | services/geminiService.ts:22-46 | a heading, a bullet list, a line break and a tail make a text that is exactly that: the heading, each item's "\n- " line in order, the line break, then the tail to the end |
| GeminiService.PromptLayout | services/geminiService.ts:22-46 | every prompt is exactly the same heading, then the five detail lines, each as its own "\n- " line in the template's order, then a line break and the same rules block, which ends it, whatever the seven inputs |
| GeminiService.PromptCarriesFields | services/geminiService.ts:22-29 | the prompt names the contact, the position (or "decision maker" when it is empty) and the company; it gives the platform, message type and focus verbatim, and the context or "N/A" when it is empty |
| GeminiService.RulesBlockContents | services/geminiService.ts:30-46 | the rules block holds the wait directive and the attendees line |
| GeminiService.Request | services/geminiService.ts:48-56 | every request names the model "gemini-2.5-flash", the fixed system instruction and temperature 0.7, whatever the seven inputs |
| GeminiService.PromptRules | services/geminiService.ts:42 | every prompt contains "[Wait 2-3 minutes after they reply to your greeting]" and the attendees line, whatever the platform and message type |
| GeminiService.InOrder | services/geminiService.ts:33 | six names written one after another into a line occur there at the positions found, in that order and without overlapping |
| GeminiService.AttendeesOrder | services/geminiService.ts:33 | in the attendees line, Central Banks, BIS, BlackRock, JP Morgan Colombia, Bancolombia and Banco Popular occur in this order |
| GeminiService.ErrorReplyTrimmed | services/geminiService.ts:61 | the apology has no surrounding white space |
| GeminiService.ErrorReplyFixed | services/geminiService.ts:58-61 | the apology has no surrounding white space, so trimming it gives it back |
| GeminiService.ScriptFromReply | services/geminiService.ts:48-62 | a reply with text gives that text trimmed; a failed call or a reply without text gives the apology; either way the result is its own trim |
| GeminiService.GenerateScript | services/geminiService.ts:11-63 | the script is what the model's answer to the one composed request calls for: its text trimmed or the apology; it never throws and never has surrounding white space |
| JourneyLayout.MoodOf | components/CustomerJourneyTab.tsx:648-655 | each of the five mood strings the switch names gives its own mood, and only that string does; every other string is `Other`; placement applies it to each stage's mood string |
| JourneyLayout.Table | components/CustomerJourneyTab.tsx:6-20 | the table has 13 stages with ids 1 to 13 in order, each with its own description |
| JourneyLayout.MoodY | components/CustomerJourneyTab.tsx:642-656 | height by mood: peak 90, positive 114, positive-alt 126, urgent 180, neutral and `Other` (the `default` branch) 150; always within the centre line ± the amplitude |
| JourneyLayout.Place | components/CustomerJourneyTab.tsx:647-661 | a placed point keeps all the stage's fields; it sits at its mood's height, or 70 lower exactly when its id is 8 |
| JourneyLayout.Layout | components/CustomerJourneyTab.tsx:647-661 | one placed point per stage, in the table's order, each keeping its stage's fields, at its mood's height plus 70 for id 8 only |
| JourneyLayout.OnlyLinkedInAskOffset | components/CustomerJourneyTab.tsx:657-659 | a stage sits off its mood's height exactly when its id is 8, and then lower |
| JourneyLayout.LayoutHeights | components/CustomerJourneyTab.tsx:6-20 | the 13 stages' heights are 114, 90, 150, 114, 90, 126, 90, 220, 150, 90, 150, 114, 90 |
| JourneyLayout.FindIndex | components/CustomerJourneyTab.tsx:665 | `find` by id returns the first stage with that id, or none exactly when no stage has it |
| JourneyLayout.FindInOrderedList | components/CustomerJourneyTab.tsx:665-668 | in a list with ids 1, 2, … in order, id k is found at position k − 1 |
| JourneyLayout.Find | components/CustomerJourneyTab.tsx:665 | `find` gives none exactly when no point has the id, and otherwise the first point with that id |
| JourneyLayout.LayoutFinds | components/CustomerJourneyTab.tsx:647-668 | after placement every table id is still found at its position |
| JourneyLayout.Segment | components/CustomerJourneyTab.tsx:663 | the curve ends at the end point; its control points sit at 30% and 70% of the horizontal distance, at the start's and the end's height, between the two ends, in order |
| JourneyLayout.Chain | components/CustomerJourneyTab.tsx:670-673 | a run of segments through a list of points joins each point to the next and ends at the last |
| JourneyLayout.PathThrough | components/CustomerJourneyTab.tsx:670-673 | the path moves to its start, draws its line if any, and joins each given point to the next, ending at the points after the first |
| JourneyLayout.Wave | components/CustomerJourneyTab.tsx:641-684 | `waveData` keeps the placed points as given, and its arrow runs from 10 above point 8 to 10 right of point 4 |
| JourneyLayout.WaveTopology | components/CustomerJourneyTab.tsx:670-673 | the entry path starts at (0, 150), draws a line to stage 1 and runs 1→2→3; the e-mail branch runs 3→4→5→6→7→9; the LinkedIn branch runs 3→8; the tail runs 9→10→11→12→13 |
| JourneyLayout.JourneyCoordinates | components/CustomerJourneyTab.tsx:6-20 | all 13 ids are found in the placed table, and each stage's coordinates are as the table and its mood give them |
| JourneyLayout.JourneyWave | components/CustomerJourneyTab.tsx:641-684 | the map's own `waveData` holds the placed table, and its arrow runs from (460, 210) to (310, 114) |
| JourneyDetails.SpecificContent | components/CustomerJourneyTab.tsx:717-759 | ids 1 to 9, 11 and 12 each show their own component (1 the greeting, 2 the pitch, 3 qualification, 4 the overview e-mail, 5 its confirmation, 6 and 8 the day-four follow-up in its e-mail and LinkedIn variants, 7 the follow-up confirmation, 9 the rescue, 11 discovery, 12 the proposal), and different ids show different components; ids 10 and 13 show their description with a copy button; any other id shows "Template coming soon..." |
| JourneyDetails.RenderDetails | components/CustomerJourneyTab.tsx:707-767 | no selection shows the introduction; a selection shows its name, timing and description above the content its id selects |
| JourneyDetails.TableHasContent | components/CustomerJourneyTab.tsx:6-20 | no stage of the table falls to the "coming soon" placeholder |
| JourneySelection.Apply | components/CustomerJourneyTab.tsx:698-703 | a step callback selects its stage and highlights its index; the last callback clears the highlight and keeps the selection |
| JourneySelection.RunAppend | components/CustomerJourneyTab.tsx:695-704 | firing two runs of callbacks in turn is firing them together |
| JourneySelection.AnimationTimers | components/CustomerJourneyTab.tsx:695-704 | the animation registers one callback per stage, the i-th at start + i·800 showing stage i, then one at start + 13·800 ending the animation |
| JourneySelection.AnimationTimersSorted | components/CustomerJourneyTab.tsx:697-703 | the animation's callbacks are due in registration order, 800 ms apart |
| JourneySelection.RunShows | components/CustomerJourneyTab.tsx:697-701 | after a run of step callbacks, the last one's stage is selected and its index highlighted |
| JourneySelection.AnimationVisits | components/CustomerJourneyTab.tsx:697-701 | after the first i + 1 callbacks, stage i is selected and highlighted |
| JourneySelection.AnimationEnds | components/CustomerJourneyTab.tsx:697-703 | whatever happened before, the remaining callbacks end with the last stage selected and no step highlighted |
| JourneySelection.ResetBeforeEnd | components/CustomerJourneyTab.tsx:690-703 | a reset after the last step leaves nothing selected when the end callback fires |
| JourneySelection.Radius | components/CustomerJourneyTab.tsx:803-809 | the radius is 14 exactly for the highlighted step, 12 exactly for another selected stage, 8 otherwise |
| JourneySelection.StrokeWidth | components/CustomerJourneyTab.tsx:803-811 | the stroke is 4 exactly for the highlighted step or the selected stage, 3 otherwise |
| JourneySelection.HighlightDuringAnimation | components/CustomerJourneyTab.tsx:697-701 | while step i shows, stage i is drawn largest and every other stage at the smallest size |
| JourneySelection.TableDistinctIds | components/CustomerJourneyTab.tsx:6-20 | the table's ids are distinct |
| JourneySelection.EarliestUnique | components/CustomerJourneyTab.tsx:698-703 | at most one registered callback is the next to fire |
| JourneySelection.EarliestOfSorted | components/CustomerJourneyTab.tsx:698-703 | when callbacks are registered in due order, the first registered fires first |
| JourneySelection.NextDue | components/CustomerJourneyTab.tsx:698-703 | finds the callback that fires next: the earliest due, the first registered among ties |
| JourneySelection.JourneyView.constructor | components/CustomerJourneyTab.tsx:638-639 | nothing selected, no step highlighted, no callback registered |
| JourneySelection.JourneyView.Click | components/CustomerJourneyTab.tsx:686-688 | selects the point and leaves the highlighted step and the registered callbacks as they are |
| JourneySelection.JourneyView.Reset | components/CustomerJourneyTab.tsx:690-693 | clears the selection and the highlighted step; registered callbacks stay registered |
| JourneySelection.JourneyView.Animate | components/CustomerJourneyTab.tsx:695-704 | resets, then appends the animation's callbacks for the current time to those registered |
| JourneySelection.JourneyView.Schedule | components/CustomerJourneyTab.tsx:697-703 | the loop appends one callback per stage and the final one, in that order, and changes nothing else |
| JourneySelection.JourneyView.Wait | components/CustomerJourneyTab.tsx:697-703 | time passes up to a moment no later than the next due callback; nothing fires and nothing else changes |
| JourneySelection.JourneyView.FireNext | components/CustomerJourneyTab.tsx:698-703 | the clock moves to the next callback's due time, the callback is removed, and its effect is applied to the state |
| JourneySelection.JourneyView.FireAll | components/CustomerJourneyTab.tsx:698-703 | with callbacks in due order, all fire, and the state is that of running them in turn |
| JourneySelection.AnimateAndWait | components/CustomerJourneyTab.tsx:695-704 | animating and waiting leaves stage 13 selected and no step highlighted |
| JourneySelection.ResetMidAnimation | components/CustomerJourneyTab.tsx:690-704 | a reset after the first step does not stop the animation: stage 13 ends up selected again |
| ScriptGenerator.With | components/ScriptGeneratorTab.tsx:43-46 | an edit replaces exactly the named field and keeps the other six |
| ScriptGenerator.Validates | components/ScriptGeneratorTab.tsx:49 | validation passes exactly when the contact name and the company are both non-empty |
| ScriptGenerator.Outcome | components/ScriptGeneratorTab.tsx:65-67 | a returned script is shown as it is; a call that throws shows the error text |
| ScriptGenerator.CallFor | components/ScriptGeneratorTab.tsx:56-64 | the call passes contact name, company, position, platform, message type, context and focus, in that order |
| ScriptGenerator.ScriptGeneratorTab.constructor | components/ScriptGeneratorTab.tsx:31-41 | empty name, company, position and context; platform "linkedin", message type "initial", focus "central-banks"; the placeholder script; not loading |
| ScriptGenerator.ScriptGeneratorTab.HandleChange | components/ScriptGeneratorTab.tsx:43-46 | the named field takes the value; the script and the loading flag are kept |
| ScriptGenerator.ScriptGeneratorTab.BeginGenerate | components/ScriptGeneratorTab.tsx:48-64 | with an empty name or company no call is made and nothing changes; otherwise loading starts, the loading text shows and the call with the form's values is made |
| ScriptGenerator.ScriptGeneratorTab.CompleteGenerate | components/ScriptGeneratorTab.tsx:65-71 | the script becomes the returned text, or the error text when the call throws; loading ends either way |
| ScriptGenerator.ScriptGeneratorTab.HandleGenerate | components/ScriptGeneratorTab.tsx:48-72 | the whole handler: no call and no change for an empty name or company; otherwise one call, the form kept, and the call's outcome shown with loading ended |
| ScriptGenerator.ScriptGeneratorTab.HandleGenerateWith | components/ScriptGeneratorTab.tsx:48-72 | with the service as the call, the catch branch never runs: the script becomes the service's answer, which has no surrounding white space |
| ScriptGenerator.ScriptGeneratorTab.HandleCopy | components/ScriptGeneratorTab.tsx:74-79 | copies the script exactly when it is non-empty, not the placeholder, and nothing is loading |
| ScriptGenerator.ScriptGeneratorTab.CopyActs | components/ScriptGeneratorTab.tsx:75 | when copying acts, the generate button is enabled and the script is not the placeholder |
| ScriptGenerator.ScriptGeneratorTab.CopyDisabled | components/ScriptGeneratorTab.tsx:140 | the copy button is disabled while the placeholder shows |
| ScriptGenerator.ScriptGeneratorTab.GenerateDisabled | components/ScriptGeneratorTab.tsx:129 | whenever the generate button is disabled, the copy button is disabled too |
| ScriptGenerator.PlaceholderNotCopied | components/ScriptGeneratorTab.tsx:74-79 | the placeholder is never copied, and its copy button is disabled |
| ScriptGenerator.CopyGuardsDisagree | components/ScriptGeneratorTab.tsx:74-79 | the copy button and the copy handler disagree exactly when nothing is loading and the script is empty or starts like the placeholder without being it |
| ScriptGenerator.LoadingDisablesBoth | components/ScriptGeneratorTab.tsx:129 | while the generate button is disabled, the loading text shows and copying is disabled |
| ScriptGenerator.BlankNamesValidate | components/ScriptGeneratorTab.tsx:49 | blank names pass validation; the empty initial form does not |

## Left out

- Markup and styling are left out: the JSX, the Tailwind classes, and the text of the bespoke detail components. `Component` names each component; its content is not reproduced.
- The number formatting of the SVG path strings is left out, and so is the floating-point rounding of the ×0.3, ×0.6 and ×0.7 products. `Segment` and the paths give exact control points instead of path text.
- The `GoogleGenAI` client and the module-level `API_KEY` check are left out. The model is a function parameter; its request carries the model name, the prompt, the system instruction and the temperature.
- GeminiService.Prompt: has no contract of its own; its layout is stated by `PromptLayout`, `PromptCarriesFields` and `PromptRules`, which keeps the long literal text out of every caller's proof.
- `alert`, `console.error` and `navigator.clipboard.writeText` are left out. `HandleCopy` returns the text it would copy. The copy button of ids 10 and 13 writes a `template` field the stages do not have; that copy is not part of this model.
- Real time and the suspension at `await` are left out. The clock moves only through `Wait` and `FireNext`, and generation is split into `BeginGenerate` and `CompleteGenerate`. Interleaving an edit between the two is possible in the model, but no lemma is stated about it.
- JourneySelection.JourneyView.Click: takes a `Touchpoint`. In the code a click passes the placed point, which also carries its height, while the animation passes the table's point. The two agree on id, name, timing and description, which are all the selection is read for, so the model stores the table's point in both cases.
- JourneySelection.JourneyView.FireAll: requires the registered callbacks to be in due order. That holds for everything `Animate` registers from an empty queue; interleaving two animations is reached through `FireNext` alone.
- JourneyLayout.Layout: each stage keeps the table's mood string; `MoodOf` turns it into the `Mood` the height switch tells apart, with `Other` for the `default` branch. The table itself uses only "peak", "positive", "positive-alt" and "neutral".
- JourneySelection.AnimateAndWait: starts from an empty callback queue. The code also lets "Animate Journey" be pressed while an earlier animation's callbacks are still pending, since the button is never disabled and reset cancels nothing. That case is reachable in the model through `Animate` and `FireNext`, but no lemma states its end state. `ResetMidAnimation` covers the related case of a reset while callbacks are pending.
- App.tsx, the copy-notification timer, the static tabs (components/MessageTemplatesTab.tsx, components/TrainingTab.tsx, components/OverviewTab.tsx) and components/common are not part of this model: they hold no logic beyond markup.
