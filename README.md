# simpleMBComp: a Dafny model of the control logic

simpleMBComp is a JUCE multiband compressor plugin. This project models the parts of it that are logic rather than signal processing or drawing:

- **Per-band control strip** (`band_controls.dfy`, class `CompressorBandControls`):
  - The bypass, solo and mute buttons behave as a radio group that may also be all off.
  - The four sliders are enabled exactly when neither mute nor bypass is on.
  - The Low/Mid/High band-select buttons choose which band's seven parameters the controls are attached to.
  - Each band-select button is coloured after its band's flags, with priority solo > mute > bypass.
- **Slider texts** (`rotary_slider.dfy`, `utilities.dfy`):
  - Kilo truncation of a value.
  - The min/max labels of a parameter range.
  - The generic slider display string.
  - The ratio slider's "N:1" rewrite.
  - The square the dial is drawn in, and the parameter the slider refers to.
- **Analyser window** (`path_producer.dfy`): each block pulled from the sample FIFO shifts the mono window forward in place (an `array<real>`). The block is then copied into the freed tail, and the window is handed on.
- **Analyser grid** (`spectrum_analyzer.dfy`):
  - The grid frequencies and gains.
  - The label texts.
  - The render and analysis rectangles.
  - The per-band gain-reduction readings.
- **Processor** (`plugin_processor.dfy`):
  - The parameter layout, with the ratio choice texts.
  - The accepted bus layouts.
  - The clearing of output channels that have no input.
  - The rule that a restored state is taken only when it decodes to a valid tree.
- **Helper modules**:
  - `Text` covers the string operations of juce::String that the core uses: `contains`, `indexOf`, one-decimal printing, `getIntValue` and `getFloatValue` on unsigned decimal text.
  - `Geometry` covers `juce::Rectangle<int>` as a value.
  - `Params` covers the per-band parameter identifiers.

Printing a float in JUCE (`String << float`, `String(value, places)`) is left uninterpreted. It is a function parameter, `Show` or `FormatPlaces`. The exception is `String(double, 1)` on the ratio choices: these values are exact tenths, so they are printed concretely as `Text.OneDecimal`. That lets the model compute the ratio slider's labels and display strings, and read the choice values back.

## JUCE behaviour the model assumes

The JUCE library is not part of this model. The class model relies on these behaviours of it:

- **A click** on a ToggleButton first flips its state, then calls `buttonClicked` (`CompressorBandControls.Click`).
- **Switching a button off with notification**: `setToggleState(false, sendNotification)` on a button whose state changes calls `buttonClicked` again. `updateSoloMuteBypassToggleStates` therefore re-enters the listener, modelled as the mutual recursion `ButtonClicked` / `UpdateSoloMuteBypassToggleStates` / `SendToggleOff`.
- **A button attachment** loads the parameter's value into its button with a notification whenever that changes the state (`SyncToggle`). The bypass, solo and mute attachments are made in that order (`AttachButtons`).
- **The band-select buttons** form a radio group. Clicking an unselected one first switches the selected one off with a notification. So `updateAttachments` runs once while no band button is on, and therefore attaches to High. Then the clicked button comes on and `updateAttachments` runs again. Clicking the selected button runs only the handler (`ClickBandButton`).
- **Rectangles**: `removeFrom*` takes at most what is there. `reduce` never leaves a negative size. Integer `/ 2` truncates toward zero.

## Model

| member | source | states |
|---|---|---|
| Utilities.KiloTruncated | Source/Utilities.h:68-77 | the flag is set exactly when the value exceeds 999; a flagged result times 1000 is the input; an unflagged result is the input |
| Utilities.TruncateKiloValue | Source/Utilities.h:68-77 | the in/out value and the returned flag are those of `KiloTruncated`: divided by 1000 and true exactly when the value exceeds 999 |
| Utilities.KiloBoundary | Source/Utilities.h:71-76 | 999 stays 999 with the flag clear; 1000 becomes 1 with the flag set |
| Utilities.KiloTwice | Source/Utilities.h:71-76 | truncating a truncated value sets the flag exactly when the original exceeded 999000, so a second call after any input up to 999000 reports false |
| Utilities.ValStringShape | Source/Utilities.cpp:15-31 | getValString takes the range start when `getLow` and the end otherwise; the text always ends with the suffix (no space); a bound above 999 is printed divided by 1000 followed by "k", any other bound is printed as it is |
| Utilities.ValStringTwentyKilohertz | Source/Utilities.cpp:23-28 | a 20000 Hz upper bound renders as the printed 20 followed by "kHz" |
| Utilities.LabelPairsShape | Source/Utilities.h:59-66 | addLabelPairs leaves exactly two labels whatever was there: the low bound's text at position 0 and the high bound's at 1, each ending with the suffix |
| Utilities.ModuleBackgroundArea | Source/Utilities.cpp:41-49 | the returned rectangle is the input shrunk by 3 on every side, never to a negative size, and lies inside the input when the input is at least 6 by 6 |
| RotarySlider.DisplayString | Source/GUI/RotarySliderWithLabels.cpp:98-130 | a choice parameter shows its current choice name verbatim; a float parameter shows the kilo-truncated value with 2 places when truncated and 0 otherwise; with a non-empty suffix, " ", "k" exactly when truncated, and the suffix follow; with an empty suffix nothing is appended |
| RotarySlider.RatioDisplayString | Source/GUI/RotarySliderWithLabels.cpp:138-151 | the result always ends in ":1"; a name containing ".0" is cut just before its first '.'; any other name is kept whole |
| RotarySlider.RatioDisplayOfOneDecimal | Source/GUI/RotarySliderWithLabels.cpp:145-148 | for a choice printed with one decimal: a whole ratio shows as its integer part plus ":1", any other keeps its decimal |
| RotarySlider.RatioDisplayFour | Source/GUI/RotarySliderWithLabels.cpp:145-148 | "4.0" shows as "4:1" |
| RotarySlider.RatioDisplayHundred | Source/GUI/RotarySliderWithLabels.cpp:145-148 | "100.0" shows as "100:1" |
| RotarySlider.RatioDisplayOneAndAHalf | Source/GUI/RotarySliderWithLabels.cpp:145-150 | "1.5" has no ".0" and shows as "1.5:1" |
| RotarySlider.SliderBounds | Source/GUI/RotarySliderWithLabels.cpp:81-96 | the dial area is a square whose top edge is 21 px below the component's top, with side min(width, height - 21) - 21, horizontally centred to within a pixel, and inside the component when the side is not negative |
| RotarySlider.RotarySliderWithLabels.constructor | Source/GUI/RotarySliderWithLabels.h:16-22 | the slider holds the given parameter, suffix and title, has no labels, and is enabled |
| RotarySlider.RotarySliderWithLabels.ChangeParam | Source/GUI/RotarySliderWithLabels.cpp:132-136 | the slider refers to parameter `p`; nothing else in the model changes |
| BandControls.RadioClick | Source/GUI/CompressorBandControls.cpp:203-230 | when the clicked button is on, it stays on and the other two are off; when it is off, nothing changes |
| BandControls.UserClickKeepsAtMostOne | Source/GUI/CompressorBandControls.cpp:203-230 | a click keeps "at most one of bypass, solo, mute is on"; clicking the button that is on leaves all three off; clicking one that is off leaves it on |
| BandControls.PriorityColoursIdentifyFlag | Source/GUI/CompressorBandControls.cpp:167-189 | starting from the default colours, a band button ends up with solo's colour exactly when soloed, with mute's exactly when muted and not soloed, with bypass's exactly when bypassed only, and with the default exactly when no flag is set |
| BandControls.NamesForIndexedByPos | Source/GUI/CompressorBandControls.cpp:259-319 | the name list has seven entries and its entry at each `Pos` index is that band's parameter of that kind |
| BandControls.SelectedBand | Source/GUI/CompressorBandControls.cpp:243-252 | Low exactly when the Low toggle is on, Mid exactly when Low is off and Mid is on, High exactly when both are off |
| BandControls.RatioLabelsAccumulate | Source/GUI/CompressorBandControls.cpp:354-359 | as written, a second updateAttachments leaves the ratio slider four labels, each one twice, and a third leaves six, each three times |
| BandControls.RatioLabelsOfOneDecimal | Source/GUI/CompressorBandControls.cpp:355-358 | with the labels replaced, the ratio slider has exactly two labels: "1:1" at 0 and, at 1, the integer part of the last one-decimal choice followed by ":1" |
| BandControls.LoadFlagsKeepsAtMostOne | Source/GUI/CompressorBandControls.cpp:366-368 | loading any stored flags into buttons with at most one on leaves at most one on |
| BandControls.LoadedColourOfShownFlags | Source/GUI/CompressorBandControls.cpp:366-368 | loading the flags the buttons already show sends no notification and so changes no colour |
| BandControls.LoadedColourFromAllOff | Source/GUI/CompressorBandControls.cpp:117-130 | loaded into buttons that are all off, flags with at most one set give the active band button the same colour as the priority rule: solo's, mute's or bypass's on-colour, or the colours it had |
| BandControls.PriorityAfterLoads | Source/GUI/CompressorBandControls.cpp:159-189 | the priority pass after any loads from all-off leaves the colours it would have left without them, so the loads' recolouring never shows through it |
| BandControls.LoadFlagsAtMostOne | Source/GUI/CompressorBandControls.cpp:366-368 | when the stored flags have at most one of the three on, loading them into the buttons in bypass, solo, mute order leaves the buttons showing exactly the stored flags, whatever they showed before |
| BandControls.CompressorBandControls.constructor | Source/GUI/CompressorBandControls.cpp:15-91 | four fresh, distinct sliders; Low selected and active; sliders attached to the Low band's parameters and labelled from them; the buttons show the Low band's stored flags when at most one is set; at most one of bypass, solo and mute is on for any store; slider enablement follows mute and bypass; all three band buttons carry the priority colour of their flags (solo's, else mute's, else bypass's, else the default colours) |
| BandControls.CompressorBandControls.AttachInitialBand | Source/GUI/CompressorBandControls.cpp:86 | the constructor's updateAttachments, from all-off buttons and default colours: Low attached, its flags shown when at most one is set, at most one on, the Low button coloured by the three loads and the others still default |
| BandControls.CompressorBandControls.Initialise | Source/GUI/CompressorBandControls.cpp:84-89 | from the just-built state: the updateAttachments, updateSliderEnablements and updateBandSelectButtonStates sequence gives the constructor's final state, every band button carrying the priority colour of its flags |
| BandControls.CompressorBandControls.UpdateSliderEnablements | Source/GUI/CompressorBandControls.cpp:192-201 | all four sliders are enabled exactly when neither mute nor bypass is on |
| BandControls.CompressorBandControls.SetBandColours | Source/GUI/CompressorBandControls.cpp:132-148 | the given band button gets the colours; the other two keep theirs |
| BandControls.CompressorBandControls.UpdateActiveBandFillColors | Source/GUI/CompressorBandControls.cpp:117-130 | the active band button takes the clicked button's on-colour when the clicked button is on and the default colours when it is off; the other band buttons keep theirs |
| BandControls.CompressorBandControls.ButtonClicked | Source/GUI/CompressorBandControls.cpp:108-115 | the toggles become `RadioClick` of the toggles at entry; slider enablement follows mute and bypass; the active band's colours follow the clicked button's state at entry; other band buttons keep theirs |
| BandControls.CompressorBandControls.UpdateSoloMuteBypassToggleStates | Source/GUI/CompressorBandControls.cpp:203-230 | solo on switches bypass and mute off, mute on switches bypass and solo off, bypass on switches mute and solo off, and a button that is off changes nothing (`RadioClick`); enablement still follows the toggles; the active band button keeps its colours when no toggle changed and is reset to the default colours when one did |
| BandControls.CompressorBandControls.SendToggleOff | Source/GUI/CompressorBandControls.cpp:217-228 | the button ends up off and nothing else among the toggles changes; if it was on, the listener ran, so the active band's colours are reset to the default |
| BandControls.CompressorBandControls.Click | Source/GUI/CompressorBandControls.cpp:108-115 | a user click yields `UserClick` of the previous toggles, keeps at-most-one-on, keeps enablement in step, and colours the active band button after the clicked button's new state |
| BandControls.CompressorBandControls.SyncToggle | Source/GUI/CompressorBandControls.cpp:366-368 | loading a value that differs runs the radio logic for that button; loading the current value changes no toggle and no slider; the active band button's colours follow `LoadColour`: filled with the button's on-colour when it comes on, reset when it goes off, kept when the value is already shown |
| BandControls.CompressorBandControls.UpdateAttachments | Source/GUI/CompressorBandControls.cpp:232-369 | `activeBand` becomes the selected band; the names are that band's seven parameters in `Pos` order; every slider points at that band's parameter of its kind with freshly built labels; the toggles become `LoadFlags` of the old toggles and the band's stored flags, hence exactly those flags when at most one is set; the band's button gets the colours of the three loads (`LoadedColour`); at-most-one-on is kept; the other band buttons keep their colours |
| BandControls.CompressorBandControls.AttachSliders | Source/GUI/CompressorBandControls.cpp:243-359 | the band choice and activeBand; then attack, release ("ms"), threshold ("dB") and ratio are bound to the band's parameters, each with exactly two labels |
| BandControls.CompressorBandControls.AttachButtons | Source/GUI/CompressorBandControls.cpp:366-368 | the toggles become the result of loading bypass, solo and mute in that order (`LoadFlags`), hence exactly the stored flags when at most one is set; the active band button's colours become `LoadedColour` of the three loads, so loading the flags already shown changes no colour; at-most-one-on is kept; the other band buttons keep their colours |
| BandControls.CompressorBandControls.ClickBandButton | Source/GUI/CompressorBandControls.cpp:78-80 | after a click on a band button, exactly that band is selected and active, the sliders are attached to it, and its flags are shown when at most one is set; at-most-one-on and slider enablement following mute and bypass are kept |
| BandControls.CompressorBandControls.DeselectBands | Source/GUI/CompressorBandControls.cpp:45-47 | with no band button on, the handler attaches the controls to High, loads High's flags into the buttons (`LoadFlags`) and colours High's button by those loads (`LoadedColour`); at-most-one-on and slider enablement following the toggles are kept |
| BandControls.CompressorBandControls.SelectBand | Source/GUI/CompressorBandControls.cpp:78-80 | with only `band` on, the handler attaches the controls to `band`, loads its flags into the buttons (`LoadFlags`), colours its button by those loads (`LoadedColour`) and leaves the other band buttons' colours alone; at-most-one-on and slider enablement following the toggles are kept |
| BandControls.CompressorBandControls.UpdateBandSelectButtonStates | Source/GUI/CompressorBandControls.cpp:150-190 | each band button takes its band's solo colour if soloed, else mute's if muted, else bypass's if bypassed, and otherwise keeps its colours |
| PathProducer.BlockSize | Source/GUI/PathProducer.cpp:33-36 | the samples taken are the block's size capped at the window length |
| PathProducer.Slide | Source/GUI/PathProducer.cpp:41-55 | after one block, new[i] = old[i + size] for i < N - size and new[N - size + j] = block[j] for j < size; the length is unchanged |
| PathProducer.SlideFittingBlock | Source/GUI/PathProducer.cpp:41-55 | a block no longer than the window drops that many samples at the front and is appended whole |
| PathProducer.SlideAllKeepsLastSamples | Source/GUI/PathProducer.cpp:29-55 | as long as no block is longer than the window, after any sequence of blocks the window holds the last N samples of the initial window followed by every block in order |
| PathProducer.SlideFullBlock | Source/GUI/PathProducer.cpp:41-55 | a block of exactly N samples replaces the window |
| PathProducer.SlideOversizeBlock | Source/GUI/PathProducer.cpp:33-36 | a block longer than the window leaves its first N samples in it |
| PathProducer.ShiftTowardsFront | Source/GUI/PathProducer.cpp:41-46 | the first N - size places receive the samples `size` places further on; the last `size` places keep their samples |
| PathProducer.CopyIntoTail | Source/GUI/PathProducer.cpp:53-55 | the last `size` places receive the block's first `size` samples; the places before them are unchanged |
| PathProducer.ShiftAndAppend | Source/GUI/PathProducer.cpp:33-55 | the array after one step is `Slide` of its previous contents |
| PathProducer.PathProducer.Process | Source/GUI/PathProducer.cpp:29-60 | after the blocks are taken in order, the window is `SlideAll` of the old window, and the windows handed to the FFT data generator are the window after each block, in order |
| SpectrumAnalyzer.Frequencies | Source/GUI/SpectrumAnalyzer.cpp:96-105 | 10 strictly ascending frequencies from MIN_FREQUENCY (20) to MAX_FREQUENCY (20000) |
| SpectrumAnalyzer.GetGains | Source/GUI/SpectrumAnalyzer.cpp:107-121 | the 8 gains -72, -60, ..., 0, 12: strictly ascending in steps of MAX_DECIBELS from NEGATIVE_INFINITY to MAX_DECIBELS, 0 included |
| SpectrumAnalyzer.FrequencyLabel | Source/GUI/SpectrumAnalyzer.cpp:188-199 | above 999 Hz the label is f / 1000 printed followed by "kHz", otherwise f printed followed by "Hz" |
| SpectrumAnalyzer.FrequencyLabelIsValString | Source/GUI/SpectrumAnalyzer.cpp:188-199 | the frequency labels follow the same rule as getValString on a range starting at that frequency |
| SpectrumAnalyzer.FrequencyGridLabels | Source/GUI/SpectrumAnalyzer.cpp:185-199 | on the grid the first five frequencies are labelled in Hz and the last five in kHz |
| SpectrumAnalyzer.GainLabel | Source/GUI/SpectrumAnalyzer.cpp:219-222 | the label is "+" followed by the printed gain exactly when the gain is positive, and the printed gain alone otherwise |
| SpectrumAnalyzer.GainGridLabels | Source/GUI/SpectrumAnalyzer.cpp:213-222 | of the eight grid gains only the top one, +12, carries a "+" |
| SpectrumAnalyzer.RenderArea | Source/GUI/SpectrumAnalyzer.cpp:364-374 | the bounds minus 12 px at the top, 2 at the bottom and 20 on each side, each cut at most what is there, inside the bounds |
| SpectrumAnalyzer.AnalysisArea | Source/GUI/SpectrumAnalyzer.cpp:376-382 | the render area minus a further 4 px at the top and the bottom: width W - 40 and height H - 22 when the bounds are large enough, inside the render area |
| SpectrumAnalyzer.SpectrumAnalyzer.Update | Source/GUI/SpectrumAnalyzer.cpp:320-336 | from exactly six values (low, mid, high; input then output), each band's reading is its output minus its input |
| PluginProcessor.CreateParameterLayout | Source/PluginProcessor.cpp:253-311 | exactly five parameters, in order: Threshold [-60, 12] step 1 default 0; Attack [5, 500] step 1 default 50; Release, the same range, default 250; Ratio with the one-decimal choice texts and default index 3; Bypassed defaulting to false; every default lies in its range |
| PluginProcessor.RatioTenthsAreTheChoices | Source/PluginProcessor.cpp:290 | the 14 choices, in order, are 1, 1.5, 2, 3, 4, 5, 6, 7, 8, 10, 15, 20, 50, 100 |
| PluginProcessor.RatioChoiceNamesSmall | Source/PluginProcessor.cpp:290-299 | the first nine choice texts are "1.0", "1.5", "2.0", ..., "8.0" |
| PluginProcessor.RatioChoiceNamesLarge | Source/PluginProcessor.cpp:290-299 | the last five choice texts are "10.0", "15.0", "20.0", "50.0", "100.0" |
| PluginProcessor.RatioChoiceValues | Source/DSP/CompressorBand.cpp:24 | reading a choice text back as a float gives exactly the ratio it was printed from |
| PluginProcessor.DefaultRatioIsThree | Source/PluginProcessor.cpp:301-304 | the default choice, index 3, reads back as a ratio of 3 |
| PluginProcessor.RatioTenthsAscending | Source/PluginProcessor.cpp:290 | the choices rise strictly |
| PluginProcessor.RatioChoicesAscending | Source/PluginProcessor.cpp:290-299 | the ratios read back from the choice texts rise strictly with the index |
| PluginProcessor.RatioChoiceDisplays | Source/GUI/RotarySliderWithLabels.cpp:138-151 | the ratio slider shows every whole choice as "N:1" and the only other choice, index 1, as "1.5:1" |
| PluginProcessor.RatioSliderLabels | Source/GUI/CompressorBandControls.cpp:354-358 | for this layout's choices the ratio slider's two labels are "1:1" and "100:1" |
| PluginProcessor.IsBusesLayoutSupported | Source/PluginProcessor.cpp:153-175 | a layout is accepted exactly when it is mono in and out, or stereo in and out |
| PluginProcessor.SupportedLayoutClearsNothing | Source/PluginProcessor.cpp:181-191 | under an accepted layout the input and output channel counts are equal (at most 2), so processBlock clears no channel |
| PluginProcessor.ClearUnusedOutputChannels | Source/PluginProcessor.cpp:190-191 | every sample of the channels from the input count up to the output count is zero; every other channel keeps its samples |
| PluginProcessor.SimpleMBCompAudioProcessor.SetStateInformation | Source/PluginProcessor.cpp:232-248 | the state becomes the decoded tree when that is valid and is unchanged otherwise; a valid state stays valid |
| Text.IndexOf | Source/GUI/RotarySliderWithLabels.cpp:146 | the first index of the character, or -1 exactly when it does not occur |
| Text.LeadingIntOfOneDecimal | Source/GUI/CompressorBandControls.cpp:358 | getIntValue of a one-decimal text is its whole part |
| Text.DecimalValueOfOneDecimal | Source/DSP/CompressorBand.cpp:24 | getFloatValue of a one-decimal text is the value it was printed from |
| Text.ContainsPointZeroOfOneDecimal | Source/GUI/RotarySliderWithLabels.cpp:145 | a one-decimal text contains ".0" exactly when its decimal digit is 0 |

## Left out

- **Compressor**: the compressor the processor runs (`CompressorBand`, `juce::dsp::Compressor`, RMS telemetry) is floating-point signal processing in a library. The only part kept is how its ratio is read from the choice text (`RatioChoiceValues`).
- **Other audio stages**: the source has no band splitter, mix bus or gain stage, so none is modelled.
- **Painting and layout**: look-and-feel, `paint`, `resized` and the FFT path drawing are graphics calls. Only the rectangles the core returns are kept.
- **Other GUI files**: the editor wiring, the control bar, the global controls, the custom buttons and the placeholder are not modelled. Source/PluginEditor.cpp:78-83 refers to members the processor header does not declare.
- **Analyser internals**: the sample FIFO, the FFT data generator, path generation and the logarithmic x mapping are not modelled. The pulled blocks are a plain sequence, and the windows handed on are recorded in `fftInput`.
- **Parameter store**:
  - Parameter lookup, attachments and `dynamic_cast` are not modelled.
  - The parameter store appears as the `Store` datatype: each band's ranges, ratio choices and flags.
  - Params.h, with its map from identifier to name, is not part of this model.
  - The slider attachments' value sync is not modelled. Of the button attachments only the load direction is kept (`SyncToggle`, `LoadFlags`), because it drives the radio logic.
- BandControls.CompressorBandControls.Click, BandControls.CompressorBandControls.SendToggleOff: the write-back of a toggled button into its Solo, Mute or Bypassed parameter, which the source's notifications trigger through the button attachments (Source/GUI/CompressorBandControls.cpp:212-213), is not modelled: `Store` is a parameter that no method changes, so a later band switch loads the flags the store was given, not the clicked ones.
- BandControls.CompressorBandControls.AttachSliders, BandControls.CompressorBandControls.UpdateAttachments, BandControls.CompressorBandControls.ClickBandButton, BandControls.CompressorBandControls.SelectBand, BandControls.CompressorBandControls.DeselectBands: use the corrected ratio labels of the Findings table, replacing the ratio slider's labels with exactly two. As written, the source appends two more on each updateAttachments (`RatioLabelsAsWritten`, `RatioLabelsAccumulate`), so these members do not capture the growing label list.
- **Floating point**: JUCE `float` and `double` values are modelled as exact reals. Rounding is not modelled, so facts such as `KiloTruncated`'s "a flagged result times 1000 is the input" hold over the reals; with `float` the division by 1000 may round.
- **Serialisation**: `getStateInformation`, `writeToStream` and `readFromData` are not modelled. The decoder is a function parameter of `SetStateInformation`.
- **Headers not in the sources**: PathProducer.h and SpectrumAnalyzer.h are not part of this model. The PathProducer constructor's zero-filled window and the analyser's zero initial readings are assumptions. The processor's constructor (Source/PluginProcessor.cpp:13-50) declares the stereo buses and looks up the compressor's five parameter handles, neither of which is modelled; `PluginProcessor.SimpleMBCompAudioProcessor.constructor` only sets up the initial parameter state, which it takes as its argument.
- **Number formatting**: JUCE's float-to-text rules are uninterpreted (`Show`, `FormatPlaces`). Only one-decimal printing of whole tenths is concrete.
- **Debug assertions**: `jassert` and `jassertfalse` are not modelled. A block larger than the window is handled as the release build does (`SlideOversizeBlock`). A slider parameter that is neither a choice nor a float gives the `OtherView` text.
- **Repaints**: `repaint` calls and the `DBG` output are not modelled.
- Utilities.ValStringShape: states the text's form rather than "contains k exactly when the bound exceeds 999". The printed number is uninterpreted and could itself contain a "k".
- BandControls.CompressorBandControls.ClickBandButton: does not state the colours of the clicked band's button and the High button. Both may be recoloured by the flag loads of the two handler runs.
- BandControls.CompressorBandControls.UpdateAttachments: ensures slider enablement follows the toggles only when it did before or the toggles changed. A load that changes nothing leaves the sliders as they were.
- **Single-band and per-band parameters**: `createParameterLayout` in Source/PluginProcessor.cpp:253-311 registers single-band parameters ("Threshold", "Attack", "Release", "Ratio", "Bypassed"), while Source/GUI/CompressorBandControls.cpp:259-306 attaches to per-band names (`Attack_Low_Band`, ...). The model keeps both as written: `CreateParameterLayout` gives the five single-band parameters, and the band controls use per-band `ParamName`s.
- **`names`**: in updateAttachments `names` is a local. The model returns it as an out-parameter of `UpdateAttachments` rather than storing it.

## Findings

| source | as written | input that shows it | evidently intended | confidence | as-written member | corrected member |
|---|---|---|---|---|---|---|
| Source/GUI/CompressorBandControls.cpp:354-359 | the ratio slider's two labels are added with `labels.add` and no `labels.clear()`, unlike `addLabelPairs` (Source/Utilities.h:61) used for the other three sliders | after the constructor's updateAttachments, re-clicking the selected band runs it once more and leaves four ratio labels ("1:1" and "100:1" each twice); clicking another band runs it twice more and leaves six | the labels are replaced, so the ratio slider always has exactly "1:1" and the last choice's whole part with ":1" | not executed | BandControls.RatioLabelsAccumulate | BandControls.RatioLabelsOfOneDecimal |
