# Telegram mini-app wallet starter: session controller, formatters and EVM demo

This project models the three pieces of the Telegram mini-app starter that
carry their own logic. Everything else in the app is view code or calls into
the wallet and platform SDKs.

- **The app context provider** (`AppProvider`). On launch it connects once
  with the Telegram init data, guarded by a one-shot latch
  (`initDataConnectedRef`). It holds the error of a rejected connect
  (`connectError`) and routes errors reported through `handleError`: code
  10005 (invalid token) either connects again or opens an "Invalid Token"
  popup whose "close" button closes the mini app, and every other code shows
  a toast. The module `Context` describes the provider as pure transitions
  (`Next`, `Output`, and `Run`/`Trace` over event sequences). The class
  `Context.AppProvider` keeps the same state in fields, and each of its event
  methods is proved to follow `Next` and `Output`. The SDK's `connect`, the
  popup's promise and the status observable become events whose outcomes are
  parameters. Connect calls, toasts, the popup and closing the app are
  appended to an effect trace.
- **The string formatters** (`Utils`). `shortString` elides the middle of
  long text, and `formatBalance` truncates an ether amount to six decimals.
  The JavaScript built-ins they use are modelled in `Js`: `split` with a
  one-character separator, `join`, the rendering of an integer in a template
  literal, and `Number()` on digit strings.
- **The EVM demo component** (`EvmDemo`). It covers the two supported chains,
  the selector keys `${fullname}-${id}`, and how `handleChainSwitch` decodes
  a key. The class `EvmDemo.Component` holds the component state (recipient,
  formatted balance, deployment flag) and the fetchers that update it. It
  also models `sendNativeTransaction`, which refuses an empty recipient and
  otherwise sends 0.01 ether (10^16 wei) with data `"0x"`. The provider,
  signer, `switchChain` and the smart account are abstract: their answers
  are parameters. The calls that act on the outside world are recorded as
  effects: toasts, `sendTransaction` and `switchChain`. The reads
  `getSigner`, `getAddress`, `getBalance` and `isDeployed` are not recorded;
  only their answers enter the model.

Events reach the session controller in any order the model's callers choose,
so the lemmas about runs (`AutoConnectAtMostOnce`, `ConnectErrorNeverCleared`,
`LatchNeverResets`) hold for every interleaving the SDKs could produce.

Three facts about the code shape what the controller does:
- The code has no retry flag. `handleError` reads the launch latch but never
  sets it (src/context/index.tsx:77-78). Before the launch connect, each
  code-10005 report therefore starts another connect
  (`Context.InvalidTokenReconnectsEachTime`). After the launch connect the
  latch is already set, so code 10005 always opens the popup
  (`Context.RejectedLaunchThenInvalidToken`).
- A rejected connect does not call `handleError` (src/context/index.tsx:53-56).
  It only holds the error and shows the generic toast, so no automatic
  reconnect follows a rejected launch connect.
- The generic "Create wallet error" toast fires on every rejected connect,
  whatever the code.

## Model

| member | source | states |
|---|---|---|
| `Js.Split` | src/utils/index.ts:32 | `split('.')` always yields at least one piece, and no piece contains the separator |
| `Js.SplitJoin` | src/utils/index.ts:32 | joining the pieces of a split with the separator gives back the original text |
| `Js.JoinSplit` | src/components/EVMDemo/index.tsx:138 | splitting a join of separator-free pieces gives back exactly those pieces |
| `Js.Join` | src/utils/index.ts:5 | `join(sep)` (and an array's `toString`) starts with the first element, followed by the separator when there is a second |
| `Js.ToNumberOrNaN` | src/components/EVMDemo/index.tsx:138 | `Number` of a missing array element (`undefined`) is NaN; of a present one, finite exactly when it is a digit string |
| `Js.NumberText` | src/components/EVMDemo/index.tsx:160-161 | `${id}` renders a non-negative id as a non-empty run of decimal digits, with no `-` |
| `Js.ToNumber` | src/components/EVMDemo/index.tsx:138 | `Number(text)` is a finite value exactly when the text is made of digits; anything else is NaN |
| `Js.NumberTextRoundTrip` | src/components/EVMDemo/index.tsx:138 | `Number` of the rendered id gives the id back |
| `Utils.Coerced` | src/utils/index.ts:4-6 | an array becomes a string; any other value passes through unchanged |
| `Utils.ShortString` | src/utils/index.ts:3-17 | the result has at most 10 characters or exactly 13; it is empty exactly when the (array-rendered) input is falsy or renders as empty text |
| `Utils.ShortStringKeepsShort` | src/utils/index.ts:11-13 | a truthy value whose text has at most 10 characters is returned unchanged |
| `Utils.ShortStringElides` | src/utils/index.ts:14 | longer text gives 13 characters: the input's first five, then `...`, then its last five |
| `Utils.ShortStringFalsy` | src/utils/index.ts:7-16 | a falsy input (for example the empty string) gives `""` |
| `Utils.ShortStringArray` | src/utils/index.ts:4-6 | an array is shortened as the text `[` + elements joined by `,` + `]`; short renderings come back whole, long ones keep the leading `[` |
| `Utils.ShortStringIdempotent` | src/utils/index.ts:11-14 | shortening the result again returns it unchanged |
| `Utils.IntegerPart` | src/utils/index.ts:32 | the integer part (first piece of `split('.')`) contains no `.` |
| `Utils.DecimalPart` | src/utils/index.ts:32 | the decimal part (second piece, or empty when missing) contains no `.` |
| `Utils.FormatBalance` | src/utils/index.ts:31-35 | the result begins with the input's integer part unchanged, then `.`, then at most six more characters |
| `Utils.FormatBalanceParts` | src/utils/index.ts:31-35 | the result splits on `.` into exactly two pieces: the input's integer part unchanged, and the first min(6, n) characters of its decimal part, not rounded and not padded; a missing or empty decimal part becomes `000000` |
| `Utils.FormatBalanceIdempotent` | src/utils/index.ts:32-34 | formatting a formatted balance returns it unchanged |
| `Utils.FormatBalanceDropsRest` | src/utils/index.ts:32-34 | any text after a second `.` has no effect on the result |
| `Utils.FormatBalanceWhole` | src/utils/index.ts:33 | a balance without `.` gets `.000000` appended |
| `EvmDemo.ChainKey` | src/components/EVMDemo/index.tsx:160-161 | a key is the full name, then `-`, then the decimal id |
| `EvmDemo.SelectorKeys` | src/components/EVMDemo/index.tsx:158-165 | there is one selector item per supported chain, in table order, keyed by that chain's key |
| `EvmDemo.ChainSwitchTarget` | src/components/EVMDemo/index.tsx:136-141 | `switchChain` is requested exactly when the selection's key is present and non-empty; an absent or empty key never triggers it |
| `EvmDemo.SecondSegmentIsId` | src/components/EVMDemo/index.tsx:138 | the text between the first and second `-` is what is read as the chain id |
| `EvmDemo.ChainKeyRoundTrip` | src/components/EVMDemo/index.tsx:153 | the selected key of the current chain decodes to the current chain's id when its full name has no `-` |
| `EvmDemo.SupportedKeysRoundTrip` | src/components/EVMDemo/index.tsx:13-16 | every selector item of the two supported chains decodes to its own chain id |
| `EvmDemo.SelectedKeyIsAnItem` | src/components/EVMDemo/index.tsx:153-161 | the selected key of a supported current chain is one of the item keys, and the two item keys differ |
| `EvmDemo.DashedFullnameLosesId` | src/components/EVMDemo/index.tsx:138 | a full name containing `-` followed by a word starting with an ASCII letter other than `I` decodes to NaN rather than the id |
| `EvmDemo.SentText` | src/components/EVMDemo/index.tsx:123 | the success toast is "Transaction sent! Hash: " followed by the hash whole when it has at most 10 characters, and otherwise by its first five characters, "..." and its last five |
| `EvmDemo.TransferEffects` | src/components/EVMDemo/index.tsx:107-129 | one transfer issues one or two effects; a request can only come first and is always to the recipient with 10^16 wei and data `0x`; no chain switch is issued |
| `EvmDemo.EmptyRecipientRefused` | src/components/EVMDemo/index.tsx:108-111 | an empty recipient produces the "Please enter a recipient address." toast and no transaction request |
| `EvmDemo.TransferPayload` | src/components/EVMDemo/index.tsx:113-119 | once a signer is obtained, exactly one request is sent, to the recipient, with 10^16 wei and data `0x`; without a signer none is sent |
| `EvmDemo.TransferToasts` | src/components/EVMDemo/index.tsx:121-128 | a success toast appears only when a receipt is returned; any failure gives exactly one "Transaction failed." toast; a null receipt gives no toast |
| `EvmDemo.Component.constructor` | src/components/EVMDemo/index.tsx:32-34 | the component starts with an empty recipient, an empty balance, not deployed, and no effects |
| `EvmDemo.Component.SetRecipientAddress` | src/components/EVMDemo/index.tsx:176 | the input sets the recipient and changes nothing else |
| `EvmDemo.Component.FetchBalance` | src/components/EVMDemo/index.tsx:55-66 | on success the balance becomes the formatted ether amount; on failure it is unchanged; the balance shown is always empty or already formatted |
| `EvmDemo.Component.FetchDeploymentStatus` | src/components/EVMDemo/index.tsx:76-86 | without a smart account nothing changes; otherwise the flag becomes the answer of `isDeployed`, or stays as it was when that fails |
| `EvmDemo.Component.SendNativeTransaction` | src/components/EVMDemo/index.tsx:107-129 | the effects issued are those of `TransferEffects` for the current recipient and the provider's outcome; no state field changes |
| `EvmDemo.Component.HandleChainSwitch` | src/components/EVMDemo/index.tsx:136-141 | a present, non-empty key issues one `switchChain` with the decoded id; an absent or empty key issues nothing |
| `Context.Initial` | src/context/index.tsx:42-43 | at mount no error is held and the latch is down |
| `Context.ErrorMessage` | src/context/index.tsx:96 | the toast text is the error's message when that is non-empty, otherwise a non-empty fallback |
| `Context.Next` | src/context/index.tsx:46-100 | no event changes the init data, lowers the latch or clears a held error |
| `Context.Output` | src/context/index.tsx:46-100 | each event issues at most one effect, and a connect only ever uses the truthy init data |
| `Context.Run` | src/context/index.tsx:34-100 | the init data stays the same over any sequence of events |
| `Context.Trace` | src/context/index.tsx:34-100 | a sequence of events issues at most one effect per event, and every connect in it uses the launch init data |
| `Context.AutoConnectCondition` | src/context/index.tsx:62-70 | the effect connects, with the init data, exactly when init data is present, status is "disconnected", no error is held and the latch is down; it raises the latch; otherwise it changes nothing |
| `Context.OnlyTheEffectLatches` | src/context/index.tsx:67 | no event lowers the latch, and no event other than the effect raises it |
| `Context.LatchNeverResets` | src/context/index.tsx:64-68 | once raised, the latch stays raised after any sequence of events |
| `Context.AutoConnectAtMostOnce` | src/context/index.tsx:62-70 | over any sequence of events the effect starts at most one connect, and none once the latch is up |
| `Context.ConnectRejectedHoldsError` | src/context/index.tsx:53-56 | a rejected connect holds its error and issues exactly one "Create wallet error, please reload this page." toast whatever the code; latch and status unchanged |
| `Context.ConnectResolvedIsSilent` | src/context/index.tsx:48-52 | a resolved connect changes nothing and issues nothing |
| `Context.ConnectErrorNeverCleared` | src/context/index.tsx:53-70 | a held error stays held after any events, and the effect then starts no connect |
| `Context.InvalidTokenHandling` | src/context/index.tsx:76-94 | code 10005 issues one effect: a connect with the init data exactly when the latch is down and init data is present, otherwise the "Invalid Token" popup with its single `close` button |
| `Context.OtherErrorHandling` | src/context/index.tsx:95-97 | any other code issues one toast with the message, or "unknown error occurred" when the message is empty or absent |
| `Context.HandleErrorKeepsState` | src/context/index.tsx:73-100 | `handleError` changes neither the latch nor the held error nor the status |
| `Context.PopupAnswerHandling` | src/context/index.tsx:86-93 | answering `close` closes the mini app; any other answer or a popup failure does nothing |
| `Context.InvalidTokenReconnectsEachTime` | src/context/index.tsx:76-79 | while the latch is down, n reports of code 10005 start n connects and change no state |
| `Context.RejectedLaunchThenInvalidToken` | src/context/index.tsx:46-94 | a launch whose connect is rejected issues one connect and the generic toast; a later code 10005 opens the popup; after these events the effect starts no connect, whatever events follow |
| `Context.SuccessfulLaunchIsSilent` | src/context/index.tsx:46-70 | a launch whose connect succeeds issues one connect and no notification, also when the effect runs again after the status change |
| `Context.UseAppContext` | src/context/index.tsx:117-122 | the context value is returned inside a provider; outside one the call fails with its message |
| `Context.AppProvider.constructor` | src/context/index.tsx:34-43 | the provider starts in the initial state with no effects |
| `Context.AppProvider.ConnectWithTelegram` | src/context/index.tsx:46-59 | the call issues one connect with the given credential and changes no state |
| `Context.AppProvider.RunEffect` | src/context/index.tsx:62-70 | the effect's new state and effects are those of `Next` and `Output` |
| `Context.AppProvider.OnConnectResolved` | src/context/index.tsx:48-52 | follows `Next` and `Output` for a resolved connect |
| `Context.AppProvider.OnConnectRejected` | src/context/index.tsx:53-56 | follows `Next` and `Output` for a rejected connect |
| `Context.AppProvider.HandleError` | src/context/index.tsx:73-100 | follows `Next` and `Output` for `handleError` |
| `Context.AppProvider.OnPopupAnswered` | src/context/index.tsx:86-93 | follows `Next` and `Output` for the popup's answer |
| `Context.AppProvider.OnStatusChanged` | src/context/index.tsx:39 | the held status becomes the SDK's new `connectionStatus`; nothing else changes |

## Left out

- `copyTextToClipboard` (src/utils/index.ts:19-27): browser clipboard I/O.
- The home screen, the root providers and the layout (src/components/Home, src/components/Root, src/app/layout.tsx) are view code and SDK configuration. They are not part of this model.
- Console logging in every function is not modelled.
- The wallet SDK (`connect`, `connectionStatus`, `switchChain`, the EVM provider, the signer, `isDeployed`), the Telegram popup and `miniApp.close`, and `ethers.formatEther` are outside the model. Their answers are parameters or events. `connect`, `sendTransaction`, `switchChain`, opening the popup and closing the app are recorded as effects; `getSigner`, `getAddress`, `getBalance` and `isDeployed` are not.
- React re-render timing and asynchronous interleaving are reduced to discrete events in any order. The model does not tie a connect outcome or popup answer to an earlier call, so it admits more event sequences than can occur.
- `Js.ToNumber`: only digit strings are numbers (the empty string is 0). Other text that JavaScript's `Number()` accepts (surrounding whitespace, signs, fractions, exponents, `Infinity`, hexadecimal, binary and octal prefixes) is taken as NaN. Ids above 2^53 are exact integers here, not doubles. `EvmDemo.DashedFullnameLosesId` is stated only for words starting with an ASCII letter other than `I`, where JavaScript also gives NaN.
- `Utils.ShortString`: lengths count Unicode characters, not UTF-16 code units. A value without a callable `toString` is not modelled.
- `Context.ErrorValue`: errors are objects, so they are always truthy. A connect rejected with a falsy value, `handleError` called with `null` or `undefined` (which throws), and a non-numeric `error_code` are not modelled apart from "code is not 10005".
- `switchChain` is called without being awaited, so its failures are not caught. The model only records the call.
