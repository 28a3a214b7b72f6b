# Emotion AI app: a verified model of its core logic

This Dafny project models the parts of the emotion-aware chat application that carry decisions. Each part is proved against a specification.

- **Emotion detection** (`emotion_detection/detector.py`).
  - The per-frame scorer's rule bands.
  - The choice of the largest face.
  - The five-slot buffer that smooths the label over recent frames.
  - The chart data.
  - The `EmotionAnalyzer`: a bounded history, with the dominant label, persistence, a split-half trend and a table of response suggestions.
- **Conversation engine** (`conversation_engine/engine.py`).
  - The emotional context the engine keeps and the context message it builds from it.
  - The window of recent messages a prompt carries.
  - The conversation history.
  - The canned greetings, fallback replies and wellness tips.
- **Registration validators** (`auth/authentication.py`). The username, email, password and composite checks, which either report the failed check or return `True`.

Files:

| file | module | contents |
|---|---|---|
| `wrappers.dfy` | `Wrappers` | `Option` and `Result` |
| `tally.dfy` | `Tally` | counting, the first maximum, first-seen order, the mode, and bounded FIFO appends |
| `detector.dfy` | `EmotionDetection` | scorer, face choice, `EmotionDetector` class, bar data |
| `analyzer.dfy` | `EmotionAnalysis` | `EmotionAnalyzer` class, persistence, trend, suggestions |
| `engine.dfy` | `Conversation` | `ConversationEngine` class, context message, prompt window, lookup tables |
| `authentication.dfy` | `Authentication` | the four validators, and the strict versions of two of them |

Modelling choices:

- **Labels** are strings, as in the code, which tolerates labels outside the seven it knows.
- **Python semantics.**
  - `max(..., key=...)` returns the first maximal element.
  - `Counter.most_common(1)` and `max(d, key=d.get)` over a dictionary filled in first-seen order both break ties in favour of the label seen first (`Tally.Mode`).
  - `append` followed by `pop(0)` is `Tally.BoundedAppend`.
- **Objects whose fields change** are classes, `EmotionDetector`, `EmotionAnalyzer` and `ConversationEngine`, with ghost fields recording every item added since construction or the last clear. Their invariant states that the buffer is the last N of those items.
- **Loops in the code** stay loops: the counting loop of `get_dominant_emotion`, the first-maximum loop over the dictionary, and the prompt-building loop.
- **Randomness.** `random.uniform` draws become a `Jitter` parameter limited to the drawn ranges. `random.choice` over three entries becomes an index `choice < 3`.
- **Foreign calls.** The Haar cascades' output boxes are inputs. The language-model service's outcome is an `ApiOutcome` parameter.
- **Arithmetic** uses exact reals.
  - The trend is also given a second definition on integers: positivities are scaled by ten and denominators cleared. `EmotionAnalysis.TrendMatchesScaled` proves the two agree.
- **Scorer rule order.** The neutral boost (`emotion_detection/detector.py:236-237`) fires whenever there is no smile and there are at least two eyes, including when the surprise boost at `:228-229` also fired.
- **Python's `$`** (`re.match(r'^...$', s)`) also matches just before a final newline. The as-written validators model this exactly.

## Model

| member | source | states |
|---|---|---|
| Tally.FirstMax | emotion_detection/detector.py:157 | the index is of a maximal score and every earlier score is strictly smaller, so ties go to the first key |
| Tally.Count | emotion_detection/detector.py:378 | the number of matching entries is at most the length and positive exactly when the label occurs |
| Tally.FirstSeen | emotion_detection/detector.py:357-360 | the dictionary keys are exactly the labels that occur, without repetition |
| Tally.Mode | emotion_detection/detector.py:166-169 | the smoothed label occurs in the buffer, no label occurs more often, and among equally frequent labels it is the one seen first |
| Tally.ModeOfFirstSeen | emotion_detection/detector.py:357-362 | the first key of maximal count, in first-seen key order, is the mode |
| Tally.FirstSeenOrder | emotion_detection/detector.py:357-360 | a key that comes earlier in the dictionary occurs earlier in the input |
| Tally.ModeUnique | emotion_detection/detector.py:352-362 | the most frequent, first-seen label is unique |
| Tally.TallyStep | emotion_detection/detector.py:357-360 | one more label increments only its own count and adds it as a key only when it is new |
| Tally.LastN | conversation_engine/engine.py:250 | `s[-n:]` has length `min(n, len(s))` |
| Tally.BoundedAppend | emotion_detection/detector.py:161-163 | after append and `pop(0)` the list grows by one until it is full, then keeps its size |
| Tally.BoundedAppendTail | conversation_engine/engine.py:171-175 | the appended entry is last, preceded by the previous newest entries |
| Tally.BoundedAppendKeepsWindow | emotion_detection/detector.py:161-163 | a buffer holding the last N entries of a stream still does after one more append: the oldest is evicted first |
| EmotionDetection.Translation | emotion_detection/detector.py:33-41 | labels outside the table are shown unchanged |
| EmotionDetection.ScoreOf | emotion_detection/detector.py:158 | the score under a label is that label's entry in key order |
| EmotionDetection.Dominant | emotion_detection/detector.py:157 | the dominant key is one of the seven labels |
| EmotionDetection.Normalize | emotion_detection/detector.py:239-241 | the normalised scores are positive, at most 1 and sum to 1 |
| EmotionDetection.NormalizeKeepsDominant | emotion_detection/detector.py:239-241 | dividing by the total does not change the dominant label |
| EmotionDetection.WideEyes | emotion_detection/detector.py:224-228 | the mean eye area exceeds 2% of the face area exactly when 50 times the summed eye area exceeds w·h times the eye count |
| EmotionDetection.MeanAboveShare | emotion_detection/detector.py:225-228 | a mean of s over n items exceeds 2% of a exactly when 50·s > a·n |
| EmotionDetection.AnalyzeFacialFeatures | emotion_detection/detector.py:189-237 | all scores are positive and lie in the bands of the smile, eye-size, closed-eyes and neutral rules |
| EmotionDetection.DominantByRules | emotion_detection/detector.py:214-237 | a smile gives happy; no smile and two eyes gives neutral, even after the surprise boost; otherwise sad or angry, with sad winning ties |
| EmotionDetection.RawLabelOfFrame | emotion_detection/detector.py:154-157 | the raw label of a frame follows the smile and eye counts, whatever the jitter |
| EmotionDetection.LargestFace | emotion_detection/detector.py:150 | the chosen face has maximal area and every earlier face is strictly smaller |
| EmotionDetection.Stabilized | emotion_detection/detector.py:165-169 | below three buffered labels the raw label passes through; from three on, the label is the buffer's mode |
| EmotionDetection.StabilizedMajorityExample | emotion_detection/detector.py:165-169 | the buffer happy, happy, sad, happy, sad smooths to happy |
| EmotionDetection.EmotionDetector.constructor | emotion_detection/detector.py:79-85 | the buffer starts empty with five slots |
| EmotionDetection.EmotionDetector.DetectEmotion | emotion_detection/detector.py:111-129 | a missing or empty frame gives no result and leaves the buffer alone; otherwise the result is that of the face detection step |
| EmotionDetection.EmotionDetector.DetectWithOpenCV | emotion_detection/detector.py:146-176 | no face gives no result and an unchanged buffer; otherwise the largest face is used, the scores are the normalised rule-band scores of that face, exactly one raw label is appended, the buffer stays the last five labels, the confidence is the raw label's score and only the label is smoothed |
| EmotionDetection.SortByScore | emotion_detection/detector.py:323-327 | sorting keeps the number of entries |
| EmotionDetection.InsertKeepsDescending | emotion_detection/detector.py:323-327 | inserting into a descending list keeps it descending |
| EmotionDetection.SortByScoreDescending | emotion_detection/detector.py:323-327 | the sorted entries have decreasing scores |
| EmotionDetection.InsertPermutes | emotion_detection/detector.py:323-327 | insertion adds exactly the inserted entry |
| EmotionDetection.SortByScorePermutes | emotion_detection/detector.py:323-327 | the sorted list is a permutation of the items |
| EmotionDetection.InsertWithScore | emotion_detection/detector.py:323-327 | insertion keeps the order of entries with equal scores |
| EmotionDetection.SortByScoreStable | emotion_detection/detector.py:323-327 | the sort is stable: entries with equal scores stay in key order |
| EmotionDetection.SortByScoreKeepsScores | emotion_detection/detector.py:323-327 | the multiset of scores is unchanged by sorting |
| EmotionDetection.EmotionBarData | emotion_detection/detector.py:304-328 | no result gives no bars; otherwise seven bars with decreasing scores, which are a permutation of the bars pairing each label's display name with its own score; bars of equal score keep key order |
| EmotionDetection.BarsStable | emotion_detection/detector.py:323-327 | the bars of any one score come in the key order of the entries, since the sort is stable |
| EmotionDetection.BarsWithScoreOf | emotion_detection/detector.py:317-321 | picking the bars of one score gives the bars of the entries of that score |
| EmotionDetection.InsertBars | emotion_detection/detector.py:317-327 | inserting one entry adds exactly its bar to the bars of the list |
| EmotionDetection.SortByScoreKeepsBars | emotion_detection/detector.py:317-327 | the bars of the sorted entries are a permutation of the bars of the entries |
| EmotionAnalysis.IsEmotionPersistent | emotion_detection/detector.py:364-379 | false on an empty history, otherwise true exactly when the count of the label is at least the threshold times the length |
| EmotionAnalysis.ShareAtLeast | emotion_detection/detector.py:379 | `count / len >= threshold` is the same as `count >= threshold * len` |
| EmotionAnalysis.PersistentOutOfTen | emotion_detection/detector.py:364-379 | with ten results and the default 0.6, persistence means at least six matching results |
| EmotionAnalysis.Positivity | emotion_detection/detector.py:392-408 | the weight lies in [-1, 1], is 0 for labels outside the table, and is the integer tenths weight divided by ten |
| EmotionAnalysis.EmotionalTrend | emotion_detection/detector.py:381-421 | below three results the trend is stable; its partner lemmas below tie it to the integer trend and give its values on constant and rising histories |
| EmotionAnalysis.SumPositivityIsTenths | emotion_detection/detector.py:390-398 | the summed positivity is the summed integer weights divided by ten |
| EmotionAnalysis.HalvesAgree | emotion_detection/detector.py:402-421 | comparing the means of two halves against ±0.2 is the integer comparison of cross products against ±2·n1·n2 |
| EmotionAnalysis.TrendMatchesScaled | emotion_detection/detector.py:381-421 | the trend on exact means and the trend on scaled integers agree on every history |
| EmotionAnalysis.ConstantHistoryIsStable | emotion_detection/detector.py:381-421 | a history repeating one label is stable |
| EmotionAnalysis.SadThenHappyImproves | emotion_detection/detector.py:381-421 | four sad results then four happy ones give an improving trend |
| EmotionAnalysis.Tone | emotion_detection/detector.py:441-500 | a dominant label without its own table, including none, gets the friendly tone |
| EmotionAnalysis.TableApproach | emotion_detection/detector.py:441-500 | the own tables have three approaches, the generic one two, and none holds the escalation or trend items |
| EmotionAnalysis.TableAvoid | emotion_detection/detector.py:441-500 | the avoid list is empty exactly for labels without their own table |
| EmotionAnalysis.CountLabels | emotion_detection/detector.py:357-360 | the loop yields keys in first-seen order and each key's number of occurrences |
| EmotionAnalysis.TallyExtend | emotion_detection/detector.py:357-360 | one loop step keeps the tally of the prefix read so far |
| EmotionAnalysis.MostCountedKey | emotion_detection/detector.py:362 | the chosen key has a maximal count and every earlier key a strictly smaller one |
| EmotionAnalysis.EmotionAnalyzer.constructor | emotion_detection/detector.py:337-343 | the history starts empty with the given size |
| EmotionAnalysis.EmotionAnalyzer.AddEmotion | emotion_detection/detector.py:345-350 | a missing result is ignored; otherwise the history becomes the last `history_size` results added |
| EmotionAnalysis.EmotionAnalyzer.GetDominantEmotion | emotion_detection/detector.py:352-362 | none exactly on an empty history, otherwise the most frequent label, with ties going to the one seen first |
| EmotionAnalysis.EmotionAnalyzer.GetResponseSuggestions | emotion_detection/detector.py:423-509 | the table of the dominant label is followed by the escalation item exactly when sadness dominates and persists, then exactly one item for a declining or improving trend and none when stable |
| EmotionAnalysis.EmotionAnalyzer.ClearHistory | emotion_detection/detector.py:511-513 | the history is empty, so the trend is stable and no label persists |
| Conversation.ContextName | conversation_engine/engine.py:182 | labels outside the French table are used unchanged |
| Conversation.Persists | conversation_engine/engine.py:186-189 | persistent exactly when there are at least three recorded emotions and all of the last three equal the current one |
| Conversation.ContextOf | conversation_engine/engine.py:177-191 | no context exactly for a falsy current emotion; otherwise its French name, persistent exactly when the last three recorded emotions equal it |
| Conversation.Render | conversation_engine/engine.py:191 | the text is empty exactly when there is no context, and otherwise starts with the context opening |
| Conversation.PersistenceIsVisible | conversation_engine/engine.py:185-191 | the persistence sentence always changes the message |
| Conversation.EmotionContextMessage | conversation_engine/engine.py:177-191 | the message is empty exactly when the current emotion is falsy |
| Conversation.PromptWindow | conversation_engine/engine.py:250-254 | at most the last ten messages, in order, with their roles and contents, the last one prefixed by the context and a blank line when the context is not empty |
| Conversation.PromptWindowWithoutContext | conversation_engine/engine.py:250-254 | without a context the prompt is exactly the recent history |
| Conversation.FallbackReplies | conversation_engine/engine.py:353-392 | three replies per label, the neutral ones for unknown labels |
| Conversation.OrNeutral | conversation_engine/engine.py:351 | `emotion or "neutral"` is never empty and is the emotion itself when that is truthy |
| Conversation.FallbackResponse | conversation_engine/engine.py:346-393 | the reply is one of the replies for the current emotion, or for neutral when there is none |
| Conversation.FallbackDefaultsToNeutral | conversation_engine/engine.py:351-392 | no emotion, or an unknown one, gives a neutral reply |
| Conversation.GreetingFor | conversation_engine/engine.py:426-436 | an unknown label gets the neutral greeting |
| Conversation.WellnessTips | conversation_engine/engine.py:448-477 | three tips per label; every label but happy, sad, angry and fear gets the neutral tips |
| Conversation.WellnessTip | conversation_engine/engine.py:438-478 | the tip is one of the tips for the label |
| Conversation.SurpriseAndDisgustGetNeutralTips | conversation_engine/engine.py:448-477 | surprise and disgust get a neutral tip |
| Conversation.ConversationEngine.constructor | conversation_engine/engine.py:106-110 | no messages, no current emotion, no emotion history |
| Conversation.ConversationEngine.ContextMessage | conversation_engine/engine.py:177-191 | the engine's context message is empty exactly when its current emotion is falsy |
| Conversation.ConversationEngine.SetEmotionContext | conversation_engine/engine.py:162-175 | the emotion becomes current and the emotion history is the last ten recorded emotions, ending with it; the messages are unchanged |
| Conversation.ConversationEngine.BuildPrompt | conversation_engine/engine.py:250-254 | the loop builds exactly the prompt window for the engine's history and context |
| Conversation.ConversationEngine.GenerateResponse | conversation_engine/engine.py:193-238 | a truthy emotion is recorded and a falsy one changes nothing; the history gains the user message and then the reply, both tagged with the emotion; a prompt is sent exactly when there is a client; the reply is the service's text or a fallback reply |
| Conversation.ConversationEngine.ConversationHistory | conversation_engine/engine.py:395-405 | one entry per message, in order, with role, content and emotion |
| Conversation.ConversationEngine.ClearHistory | conversation_engine/engine.py:407-411 | no messages, no emotions, no current emotion, so the context message is empty |
| Conversation.ConversationEngine.GetGreeting | conversation_engine/engine.py:413-436 | a truthy emotion is recorded; the greeting is the table entry, or the neutral one; the messages are unchanged |
| Conversation.ThreeInARowPersists | conversation_engine/engine.py:184-189 | recording one emotion three times in a row makes it persistent, whatever came before |
| Conversation.DifferentEmotionBreaksPersistence | conversation_engine/engine.py:184-189 | recording a different emotion ends persistence |
| Authentication.DollarBody | auth/authentication.py:121 | `$` lets the pattern body end before one final newline |
| Authentication.ValidateUsername | auth/authentication.py:112-124 | length error exactly outside 3..20 characters; otherwise character error exactly when the text before any final newline is not all letters, digits and underscores; never returns false |
| Authentication.FirstIndexOf | auth/authentication.py:132 | the first occurrence, none exactly when the character is absent |
| Authentication.LastIndexOf | auth/authentication.py:132 | the last occurrence, none exactly when the character is absent |
| Authentication.MatchEmailShapeCorrect | auth/authentication.py:132-133 | the matcher without backtracking accepts exactly the strings of the email pattern |
| Authentication.EmailShapeCharacters | auth/authentication.py:132 | an address matching the pattern body holds no newline and ends in a letter |
| Authentication.ValidateEmail | auth/authentication.py:127-136 | required error exactly for the empty string; otherwise format error exactly when the text before any final newline is not local@domain.letters; never returns false |
| Authentication.ValidatePassword | auth/authentication.py:139-159 | the first missing requirement (eight characters, a capital, a small letter, a digit) decides the error, and success means all are met |
| Authentication.ValidateRegistration | auth/authentication.py:162-171 | success exactly when all three checks pass and the passwords match; otherwise the first failing check's error |
| Authentication.EmailExample | auth/authentication.py:127-136 | a plain address passes |
| Authentication.PasswordExample | auth/authentication.py:139-159 | a password with every requirement passes |
| Authentication.RegistrationReportsFirstFailure | auth/authentication.py:162-171 | each check decides the outcome once the earlier ones pass |
| Authentication.UsernameNewlineAccepted | auth/authentication.py:118-122 | any 2 to 19 allowed characters followed by a newline pass |
| Authentication.ShortUsernameWithNewline | auth/authentication.py:118-122 | "ab\n" passes although "ab" is too short |
| Authentication.EmailNewlineAccepted | auth/authentication.py:132-133 | a valid address followed by a newline passes |
| Authentication.ValidateUsernameStrict | auth/authentication.py:112-124 | success exactly for 3 to 20 letters, digits and underscores |
| Authentication.ValidateEmailStrict | auth/authentication.py:127-136 | success exactly for strings of the email pattern |
| Authentication.StrictRejectsNewlines | auth/authentication.py:118-133 | the strict checks reject any name or address holding a newline |
| Authentication.StrictAgreesWithoutFinalNewline | auth/authentication.py:118-133 | without a final newline the strict and as-written checks agree |

## Left out

- OpenCV: cascade loading, `detectMultiScale`, the grayscale conversion and overlay drawing (`emotion_detection/detector.py:89-109, 245-302`) are foreign library calls. Their output boxes are inputs.
- `detect_emotion`'s catch-all exception handler is not modelled, because the modelled steps raise nothing.
- EmotionDetection.Normalize: the rounding to two decimals (`emotion_detection/detector.py:241`) is not modelled; scores are exact reals.
- EmotionDetection.EmotionDetector.DetectWithOpenCV: because the code rounds before taking the argmax, it can tie two near-equal scores that the model keeps apart. Key order then decides the tie. Example: no smile, no eyes, angry jitter 0.01 and sad jitter 0.055 give raw angry 0.36 and raw sad 0.355 out of 1.415. Both round to 0.25, so the code appends "sad" with confidence 0.25, while the model appends "angry" with its exact share.
- EmotionAnalysis.EmotionalTrend: the half means are exact, while the code subtracts two float means and compares the result with 0.2. A difference that is exactly 0.2 can overshoot in floats. Example: for the history disgust, sad, fear (`mid = 1`) the means are -0.8 and -0.6. The float difference is 0.20000000000000007, so the code returns "improving" and `get_response_suggestions` adds "Encourager la progression positive" (`emotion_detection/detector.py:504-507`). The model's difference is 0.2, so it returns `Stable` and `GetResponseSuggestions` adds no trend item.
- The `percentage` string of each bar and `confidence_percent` are formatting only.
- `EMOTION_COLORS` belongs to the overlay drawing, which is left out.
- The language-model clients (`conversation_engine/engine.py:114-160, 240-249, 255-291, 297-324, 331-344`): environment lookup, HTTP and SDK calls, the system prompt text and the provider order. The prompt-building loops at `:250-254`, `:292-296` and `:325-330` are modelled. They are reduced to the `ApiOutcome` parameter. Every way a call can fail ends in the same fallback reply.
- Message timestamps (`datetime.utcnow`) are clock input and are not kept.
- The `confidence` arguments of `set_emotion_context` and `generate_response` are unused by the code.
- Module-level singletons (`get_emotion_detector`, `get_conversation_engine`, `reset_conversation_engine`) are hidden global state.
- Logging.
- Password hashing and JWT tokens (`auth/authentication.py:31-107, 176-191`) are foreign cryptographic libraries.
- Authentication.ValidatePassword: counts only the ASCII digits 0-9 as digits, while Python's `\d` also accepts other Unicode decimal digits. A password whose only digits are non-ASCII is rejected here but accepted by the code.
- Authentication.ErrorMessage carries the French message of each error and states nothing further.
- Strings are sequences of Unicode code points. No normalisation is modelled.

## Findings

| source | as written | input that shows it | evidently intended | confidence | as-written member | corrected member |
|---|---|---|---|---|---|---|
| auth/authentication.py:118-121 | the length check counts a final newline, and `$` matches before it | `"ab\n"` passes, though `"ab"` has two characters | 3 to 20 characters, all letters, digits or underscores, as the docstring says | high; not executed | Authentication.ShortUsernameWithNewline | Authentication.ValidateUsernameStrict |
| auth/authentication.py:132-133 | `$` matches before a final newline, so the address may end in one | `"a@b.fr\n"` passes | only addresses matching the whole pattern | high; not executed | Authentication.EmailNewlineAccepted | Authentication.ValidateEmailStrict |

`ValidateRegistration` composes the as-written validators, as the code does. `StrictAgreesWithoutFinalNewline` shows the two versions differ only on input that ends in a newline.
