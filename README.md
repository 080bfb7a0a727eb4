# Stevenson hemodynamic profiles: a verified model

The dashboard in `app.py` is a teaching tool for the Stevenson (Forrester-style)
bedside classification of acute heart failure. Its logic has two parts:

- `clasificar_stevenson(IC, PCAP)` places a patient in one of four profiles
  from the cardiac index (IC, L/min/m²) and the pulmonary capillary wedge
  pressure (PCAP, mmHg): A (compensated: warm and dry), B (congestive: warm and
  wet), C (congestive and hypoperfused: cold and wet) or L (hypoperfused and
  dry: cold and dry). It also has a fallback "No clasificado" branch. A patient
  is warm when `IC >= 2.2` and dry when `PCAP <= 18`.
- The derived vital signs computed from the form: body-mass index (IMC),
  mean arterial pressure (PAM), pulse pressure (PP) and proportional pulse
  pressure (PPP).

Both parts are pure, so the model is Dafny functions with lemmas:

- `stevenson.dfy` (module `Stevenson`) holds the five-way `Profile` datatype,
  the classifier as written (four guarded branches and the fallback), and a
  threshold-free reference table `Quadrant(warm, dry)`. The classifier is proved
  equal to the table applied to the two threshold tests. Lemmas cover the
  dead fallback, axis independence, the boundary point and the chart labels.
- `vitals.dfy` (module `Vitals`) holds IMC, PAM, PP and PPP over `int`
  pressures and heights and `real` weights. Each function's contract states
  the inverse relation it satisfies. Lemmas cover bounds, signs, monotonicity
  and the ranges reached inside the input widgets' limits.

Arithmetic is exact (`real`), not IEEE floating point. IC is an exact real,
so 2.2 is exactly the threshold. PCAP is an integer because its slider
(`app.py:94`) is integer-valued. PAS, PAD and height are integers because their
`number_input`s have integer bounds. Weight is real because its bounds are
floats.

Boundary conventions and units, as the code has them:

- The code tests `IC >= 2.2` and `PCAP <= 18`, so both threshold values count
  as warm and dry. `Stevenson.BoundaryCorner` proves that (2.2, 18) is A.
- PPP is the ratio `PP / PAS`, not a percentage, and so is `Vitals.Ppp`.

## Model

| member | source | states |
|---|---|---|
| `Stevenson.Classify` | app.py:9-19 | Never returns the fallback. Equals the quadrant table applied to `IC >= 2.2` and `PCAP <= 18`. Each of A, B, C and L holds exactly when its own pair of threshold tests holds (both directions). |
| `Stevenson.Label` | app.py:11-19 | The four profiles are shown as "Perfil " followed by their own letter; the fallback text does not start with "Perfil ". |
| `Stevenson.Quadrant` | app.py:10-17 | Every warm/dry combination names a real profile. The profile's warm side and dry side give back the two inputs. |
| `Stevenson.ClassifyLabel` | app.py:9-19 | The returned text is never "No clasificado". It is always one of the four profile labels. |
| `Stevenson.LabelsDistinct` | app.py:11-19 | The five returned texts are pairwise distinct, so the text identifies the profile. |
| `Stevenson.WarmSideOnlyFromIc` | app.py:10-17 | The result is A or B exactly when IC ≥ 2.2, whatever PCAP is. |
| `Stevenson.DrySideOnlyFromPcap` | app.py:10-17 | The result is A or L exactly when PCAP ≤ 18, whatever IC is. |
| `Stevenson.IcChangeKeepsCongestionSide` | app.py:10-17 | Changing only IC never moves a patient between dry (A/L) and wet (B/C). |
| `Stevenson.PcapChangeKeepsPerfusionSide` | app.py:10-17 | Changing only PCAP never moves a patient between warm (A/B) and cold (C/L). |
| `Stevenson.HighPcapIsWet` | app.py:12-15 | Every PCAP of 19 or more gives B or C, whatever IC is. |
| `Stevenson.BoundaryCorner` | app.py:10-17 | (2.2, 18) is A, (2.2, 19) is B, and any IC below 2.2 at PCAP 18 is L. |
| `Stevenson.ChartLabelPoint` | app.py:102-115 | Each letter's position lies inside the chart limits (IC 1–4, PCAP 5–35) and on the warm/cold and dry/wet side of the threshold lines that its profile stands for. |
| `Stevenson.ChartLabelsInOwnQuadrant` | app.py:112-115 | Classifying the chart position of each profile's letter gives that profile back. |
| `Stevenson.EveryProfileReachable` | app.py:92-96 | Each of A, B, C and L is returned for some input within the slider ranges (IC 1.0–4.0, PCAP 5–35). |
| `Vitals.Metres` | app.py:78 | The height in metres is a hundredth of the height in centimetres. |
| `Vitals.BodySizeInputs` | app.py:67-68 | Inside the weight and height widget limits, the weight is positive and the height is between 1 and 2.2 m, so the IMC guard passes. |
| `Vitals.PressureInputs` | app.py:74-75 | Inside the PAS and PAD widget limits, both pressures are positive, so the PPP guard passes. |
| `Vitals.Imc` | app.py:78 | 0 when height ≤ 0. Otherwise the result times the squared height in metres is the weight. |
| `Vitals.Pam` | app.py:79 | Three times PAM is 2·PAD + PAS. PAM − PAD is a third of the pulse pressure. |
| `Vitals.PulsePressure` | app.py:80 | PAD plus the result is PAS. |
| `Vitals.Ppp` | app.py:81 | 0 when PAS ≤ 0. Otherwise the result times PAS is the pulse pressure. |
| `Vitals.Derive` | app.py:78-81 | The four derived values are tied to each other and to the inputs: PAM − PAD = PP/3, PAD + PP = PAS, PPP·PAS = PP, IMC·height² = weight. IMC is 0 when height ≤ 0 and PPP is 0 when PAS ≤ 0. |
| `Vitals.PamBetween` | app.py:79-80 | If PAD ≤ PAS then PAD ≤ PAM ≤ PAS, and PAS − PAM is twice PAM − PAD. |
| `Vitals.PamStrictlyBetween` | app.py:79 | If PAD < PAS then PAD < PAM < PAS. |
| `Vitals.PamMonotone` | app.py:79 | PAM does not decrease when either pressure rises. The change is (ΔPAS + 2·ΔPAD)/3. |
| `Vitals.PamDeterminesDiastolic` | app.py:79 | PAD can be recovered from PAM and PAS as (3·PAM − PAS)/2. |
| `Vitals.PppAsRatio` | app.py:80-81 | If PAS > 0, PPP = 1 − PAD/PAS. |
| `Vitals.PppSign` | app.py:80-81 | If PAS > 0, PPP < 0 exactly when PAD > PAS, and PPP = 0 exactly when PAD = PAS. |
| `Vitals.PppUnitInterval` | app.py:80-81 | If 0 < PAD ≤ PAS, then 0 ≤ PPP < 1. |
| `Vitals.PppMonotoneInSystolic` | app.py:80-81 | For a fixed positive PAD, a higher PAS never lowers PPP. |
| `Vitals.PppAntitoneInDiastolic` | app.py:80-81 | For a fixed positive PAS, a higher PAD never raises PPP. |
| `Vitals.PppUnderWidgetInputs` | app.py:74-81 | Within the widget limits (PAS ≥ 50, PAD ≥ 30), the fallback 0 is never taken, PPP = 1 − PAD/PAS, and PPP < 1. |
| `Vitals.ImcPositive` | app.py:78 | Positive weight and height give a strictly positive IMC. |
| `Vitals.ImcAntitoneInHeight` | app.py:78 | For a fixed positive weight, a greater height never raises IMC. |
| `Vitals.ImcLinearInWeight` | app.py:78 | For a fixed positive height, IMC is proportional to the weight. |
| `Vitals.ImcUnderWidgetInputs` | app.py:67-68 | Within the widget limits (weight 20–200 kg, height 100–220 cm), 20/2.2² ≤ IMC ≤ 200. |
| `Vitals.WideningPulsePressureExample` | app.py:79-81 | 180/60 mmHg gives PAM 100, PP 120 and PPP 2/3. |
| `Vitals.NarrowPulsePressureExample` | app.py:79-81 | 80/60 mmHg gives PAM 200/3 and PPP 1/4. |

## Left out

- `round(..., 1)` and `round(..., 2)` on IMC, PAM and PPP (app.py:78-79, 81): these are display formatting of IEEE floats. The model proves its properties of the unrounded values.
- Floating-point representation: a slider value near 2.2 may not be exactly 2.2 in binary. The model uses exact reals, so its boundary results hold for the exact value 2.2. A NaN cardiac index fails all four comparisons and is the one input that reaches "No clasificado" (app.py:18-19); exact reals have no NaN, and the IC slider cannot produce one.
- Streamlit widgets, layout, headers, markdown, captions and the success banner (app.py:22-75, 83-97, 123): UI plumbing. Their values appear only as function parameters, with the widget limits as the `Vitals.BodySizeInputs` and `Vitals.PressureInputs` predicates.
- Drawing the quadrant chart with matplotlib (app.py:100-121): rendering through a foreign library. Only the positions of the four profile letters are modelled, to check that they sit in their own quadrants.
- Inputs that feed no computation: city, origin, sex, age, symptoms, days of evolution, past history, heart rate, respiratory rate, SpO2 and rhythm (app.py:30-75).
- Scoring of clinical findings, simulated coordinates and intervention projections: other variants of the dashboard have them; `app.py` does not, so the model does not either.
