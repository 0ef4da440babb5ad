# Blockchain Learning Lab: message contract, admin frame, contract and NFT pages

A Dafny model of the parts of the `lms-final` learning-management app that
hold logic of their own:

- the message-storage contract helpers (`lib/smart-contract.ts`):
  - validation and trimming of a new message;
  - the 20% gas buffer;
  - the priority order in which wallet errors are translated;
  - the fallback data of `readMessage`;
  - the receipt summary of `waitForMessageTransaction`;
  - the contract probe;
  - the shortened address display.
- the admin frame (`components/admin/admin-layout.tsx`):
  - which sidebar entries are highlighted for a path;
  - the top-bar title;
  - the role label;
  - the avatar initial.
- the smart-contract page (`app/contracts/page.tsx`): a class whose fields are the page's React state.
  - `handleStoreMessage` runs its guard chain and then the transaction-status machine (idle, pending, pending with a hash, then confirmed or failed).
  - `resetTransaction` and `loadContractState`.
  - the store-button and "last updated by" predicates.
- the NFT page (`app/nft/page.tsx`): a class holding the collection and the mint status.
  - the simulated mint prepends one owned item;
  - `resetMinting` and `loadNFTs`;
  - the owned/available partition;
  - the mint-button predicate.

The wallet library is reduced to the answers it gives. A `Provider` value holds, for every call the helpers make, whether it returns (and what) or throws (and with which code and message). The module-level provider, which may be missing, is an `Option<Provider>`.

With the calls reduced to answers, each contract helper is a function of its inputs and of those answers. Its contract states the branch taken for every combination of answers.

`StoreMessage` also returns the list of contract calls it made, with their arguments. That list makes two properties statable:
- a refused message reaches no contract call;
- the trimmed text is what is estimated and sent.

The two pages are classes:
- every React `useState` is a field;
- every handler is a method that `modifies` exactly the fields its setters touch;
- a ghost field records every value handed to the status setter, so the order of the status transitions is part of each method's contract;
- the toasts a handler raises are its result, in order.

`Date.now()`, `Math.random()` and an error thrown by a toast during the simulated mint are parameters of the handlers.

Files:
- `wrappers.dfy`: `Option` and `Result`.
- `text.dfy`: JavaScript's `trim`, `startsWith`, `includes` and `||` on strings.
- `decimal.dfy`: `toString()` of a non-negative integer and its inverse.
- `ui.dfy`: transaction phases and toasts.
- `smart_contract.dfy`: the contract helpers.
- `admin_layout.dfy`: the admin frame.
- `contracts_page.dfy`: the smart-contract page.
- `nft_page.dfy`: the NFT page.

## Model

| member | source | states |
|---|---|---|
| Text.Trim | lib/smart-contract.ts:143 | `trim()` returns nothing longer than its input, and returns the empty string exactly when the input is all white space |
| Text.LeadingWhiteSpaceSpan | lib/smart-contract.ts:155 | the characters `trim` drops at the front are white space, and the first one it keeps is not |
| Text.TrailingWhiteSpaceSpan | lib/smart-contract.ts:155 | the characters `trim` drops at the end are white space, and the last one it keeps is not |
| Text.TrimSplitsText | lib/smart-contract.ts:155 | the input is white space, then the trimmed text as a contiguous slice, then white space |
| Text.TrimHasNoOuterWhiteSpace | lib/smart-contract.ts:155 | a non-empty trimmed text neither starts nor ends with white space |
| Text.TrimRemovesPadding | lib/smart-contract.ts:155 | padding a text without outer white space on both sides, then trimming, gives the text back; with the two lemmas above this determines `trim` |
| Text.TrimIdempotent | app/contracts/page.tsx:118 | trimming an already trimmed message changes nothing |
| Text.TrimIgnoresAppendedWhiteSpace | lib/smart-contract.ts:147 | appending white space to a text does not change its trimmed form |
| Text.OrElse | lib/smart-contract.ts:125-126 | `s \|\| fallback` is `s` when `s` is non-empty and `fallback` when it is empty, so it is empty only when both are |
| Text.ContainsIffOccurs | lib/smart-contract.ts:172 | `includes` is true exactly when the part occurs at some index of the text |
| Decimal.DecimalString | lib/smart-contract.ts:205 | `toString()` writes at least one digit, all digits, with a leading zero only for zero |
| Decimal.DecimalRoundTrip | lib/smart-contract.ts:205 | reading the decimal text of a number gives the number back |
| Decimal.DecimalStringInjective | lib/smart-contract.ts:205 | different numbers have different decimal texts |
| SmartContract.ReadMessage | lib/smart-contract.ts:111-136 | `readMessage` never fails and never returns an empty message or sender. If either read fails, or there is no provider, it returns the demo message and the zero address. Otherwise an empty message becomes "No message stored yet" and an empty sender becomes the zero address |
| SmartContract.ValidateMessage | lib/smart-contract.ts:143-149 | a message passes exactly when it is not blank and its untrimmed length is at most 280. A blank message gets "Message cannot be empty" (checked first); a longer one gets the 280-character error; an accepted message is sent trimmed and non-empty |
| SmartContract.GasLimit | lib/smart-contract.ts:158 | the buffered limit is at least the estimate and at most 6/5 of it; it is exactly `floor(estimate * 120 / 100)` |
| SmartContract.TranslateError | lib/smart-contract.ts:169-178 | the priority order. `INSUFFICIENT_FUNDS` gives the funds text whatever the message. Otherwise a message containing "user rejected" gives the cancel text. Otherwise any message gives "Contract error: " followed by the message. The generic text comes exactly when there is no message. Each outcome holds in both directions |
| SmartContract.StoreMessage | lib/smart-contract.ts:142-180 | a refused message fails with its validation error before any contract call. Both contract calls receive the trimmed text, estimate first. The send uses the buffered gas limit. The outcome succeeds exactly when every step returns. A missing provider or signer fails with the translated "Provider not initialized" or "Wallet not connected". Every thrown error is translated |
| SmartContract.WaitForMessageTransaction | lib/smart-contract.ts:185-211 | never fails. Success holds exactly when a receipt exists with status 1. No provider, a thrown wait or a null receipt gives `{success: false}` with no block number and no gas. Otherwise the block number is reported, and the gas as decimal text without leading zeros whose value is the receipt's gas |
| SmartContract.IsContractAvailable | lib/smart-contract.ts:224-239 | false without a provider; true when probing the code throws; otherwise true exactly when the code is not "0x" |
| SmartContract.GetContractAddress | lib/smart-contract.ts:73 | the fixed address is 42 characters, starts with "0x", is not the zero address, and is displayed as "0x1234...789A" |
| SmartContract.FormatAddress | lib/smart-contract.ts:244-249 | "No sender" exactly for an empty or zero address. Otherwise the first six characters, "...", and the last four; this is 13 characters for any address of at least 10 |
| SmartContract.PageCheckedTextPassesValidation | app/contracts/page.tsx:95-118 | a message that passed the page's own checks, once trimmed, passes the helper's validation unchanged |
| SmartContract.TrailingWhiteSpaceCountsTowardsLimit | lib/smart-contract.ts:147-149 | the length limit counts trailing white space. A message padded past 280 characters is refused although its trimmed text is unchanged |
| AdminLayout.ActiveIffSegmentPrefix | components/admin/admin-layout.tsx:63 | an entry is highlighted exactly when the path equals its href, or continues it with "/" |
| AdminLayout.PlainPrefixDoesNotActivate | components/admin/admin-layout.tsx:63 | "/admin/coursesX" starts with "/admin/courses" but does not highlight Courses |
| AdminLayout.TwoEntriesActiveOnCourses | components/admin/admin-layout.tsx:27-63 | on "/admin/courses" both Dashboard and Courses are highlighted |
| AdminLayout.FindActive | components/admin/admin-layout.tsx:143 | `find` returns nothing exactly when no entry is highlighted. Otherwise it returns a highlighted entry of the list, and no entry before it is highlighted |
| AdminLayout.SectionsLieBelowAdmin | components/admin/admin-layout.tsx:27-36 | every entry after Dashboard has an href below "/admin/" |
| AdminLayout.BelowIsTransitive | components/admin/admin-layout.tsx:63 | a path highlighting an entry that lies below "/admin/" itself lies below "/admin/" |
| AdminLayout.TitleIsDashboardOrAdmin | components/admin/admin-layout.tsx:143 | the title is "Dashboard" or "Admin". It is "Dashboard" exactly when Dashboard is highlighted, and "Admin" exactly when no entry is |
| AdminLayout.EveryAdminPageTitledDashboard | components/admin/admin-layout.tsx:143 | "/admin" and every path below it are titled "Dashboard" |
| AdminLayout.ReplaceFirst | components/admin/admin-layout.tsx:97 | `replace` with a one-character pattern keeps the length and leaves a text without the pattern unchanged |
| AdminLayout.ReplaceFirstRemovesOne | components/admin/admin-layout.tsx:97 | replacing removes exactly one occurrence of the pattern when there is one |
| AdminLayout.ReplaceFirstAt | components/admin/admin-layout.tsx:97 | the occurrence replaced is the first: the one after a prefix free of the pattern |
| AdminLayout.RoleLabel | components/admin/admin-layout.tsx:97 | a missing role gives no label. Otherwise the label has the role's length and one underscore fewer, when the role has any |
| AdminLayout.SuperAdminLabel | components/admin/admin-layout.tsx:97 | "SUPER_ADMIN" is shown as "SUPER ADMIN" |
| AdminLayout.AvatarInitial | components/admin/admin-layout.tsx:89 | the initial exists exactly for a present, non-empty name. It is one character: the upper-case form of a lower-case first letter, or the first character unchanged when it is not a lower-case letter |
| Contracts.LastUpdatedByShowsAnAddress | app/contracts/page.tsx:284-288 | when the "last updated by" line is shown, it shows an address and not "No sender" |
| Contracts.EmptySenderHidesLastUpdatedBy | app/contracts/page.tsx:284 | after a read whose sender is empty, the zero-address placeholder hides the line |
| Contracts.ContractsPage.constructor | app/contracts/page.tsx:39-47 | the initial state: no account, empty contract state and input, idle status, no flag set |
| Contracts.ContractsPage.CheckConnection | app/contracts/page.tsx:55-63 | the account becomes what the wallet reports |
| Contracts.ContractsPage.LoadContractState | app/contracts/page.tsx:65-83 | the contract state becomes what `readMessage` returns, stamped with the current time. Its message and sender are never empty, and the reading flag ends cleared |
| Contracts.ContractsPage.HandleStoreMessage | app/contracts/page.tsx:85-169 | the guards run in order: wallet, blank message, untrimmed length. A failing guard raises only its toast and changes nothing. Otherwise the trimmed text is submitted. The status ends confirmed or failed, and the writing flag ends cleared. The input is cleared exactly when confirmed. A failed status carries no hash. The button is enabled again exactly after a failure |
| Contracts.ContractsPage.Submit | app/contracts/page.tsx:113-168 | the status log gains pending before anything else. A thrown submission then ends failed, with no hash, the input kept and the error's toast |
| Contracts.ContractsPage.Await | app/contracts/page.tsx:120-156 | the status log gains pending with the hash. A successful receipt then gives confirmed with the same hash and the receipt's block and gas, clears the input and reloads the contract. Otherwise the status is failed with no hash and the input is kept |
| Contracts.ContractsPage.ResetTransaction | app/contracts/page.tsx:171-174 | the status becomes idle and the input is cleared, which disables the store button |
| Nft.SelectByOwnership | app/nft/page.tsx:204-205 | `filter` keeps exactly the items with the requested ownership |
| Nft.SelectionIsSubsequence | app/nft/page.tsx:204-205 | each selection keeps the collection's order |
| Nft.SelectionsSplitCollection | app/nft/page.tsx:204-205 | the owned and the available items together are the collection, as a multiset |
| Nft.OwnershipPartition | app/nft/page.tsx:204-205 | owned and available items are disjoint and their lengths add up to the collection's; together they make up the collection, each in collection order |
| Nft.MockPartition | app/nft/page.tsx:25-53 | of the demonstration items, the first and third are owned and the second is available |
| Nft.TokenNumber | app/nft/page.tsx:134 | `Math.floor(Math.random() * 10000)` is a whole number below 10000 within one of `draw * 10000` |
| Nft.TokenId | app/nft/page.tsx:134 | the token id is the decimal text of a number in [0, 9999], without a leading zero |
| Nft.MintHash | app/nft/page.tsx:124 | the simulated hash starts with "0x" followed by the two random fragments |
| Nft.MintedNft | app/nft/page.tsx:148-156 | the minted item is owned, in the Learning Lab collection, and carries the token id |
| Nft.PrependOwned | app/nft/page.tsx:158-205 | prepending an owned item puts it at the head of the owned items and leaves the available items alone |
| Nft.MintedCollection | app/nft/page.tsx:148-158 | a mint adds exactly one item, at the head: owned, carrying the token id, whose number is below 10000. The earlier items follow in their order |
| Nft.NftPage.constructor | app/nft/page.tsx:62-66 | the initial state: no account, the demonstration items, idle status, no flag set |
| Nft.NftPage.CheckConnection | app/nft/page.tsx:74-82 | the account becomes what the wallet reports |
| Nft.NftPage.LoadNfts | app/nft/page.tsx:84-101 | the collection becomes the three demonstration items, dropping minted ones, and the loading flag ends cleared |
| Nft.NftPage.HandleMintNft | app/nft/page.tsx:103-172 | without an account only the toast is raised, and the status, flag and collection are unchanged. Otherwise the mint runs (see `Mint`), and the minting flag ends cleared with the button enabled |
| Nft.NftPage.Mint | app/nft/page.tsx:113-171 | the status log starts with pending. Without an error it continues with pending with the hash, then confirmed with the hash and token id, and the minted item is prepended. If the first toast throws, the log is pending then failed. If the success toast throws, the log is pending, pending with the hash, confirmed, then failed. Either error leaves the collection untouched and raises the error's toast. The status ends failed exactly when an error was thrown |
| Nft.NftPage.ResetMinting | app/nft/page.tsx:174-176 | the status becomes idle and the collection is untouched |

## Left out

- `lib/ethereum.ts` is not part of this model. Provider initialisation, `getCurrentAccount`, signer memoisation, the wallet's 4001 and 4902 codes and every call into the wallet library are reduced to the oracle answers in `Provider` and to the `account` passed to `CheckConnection`.
- The other pages (transactions, wallet, admin dashboard, home, layout, navigation), authentication and database seeding are not part of this model.
- Rendering is left out: JSX, icons, status colours and the Etherscan links. Only the predicates that decide what is shown or enabled are modelled.
- Timing is left out: the delays (`setTimeout`), `Date.now()` and `Math.random()` are parameters. A draw of `Math.random()` is a real in [0, 1). The hexadecimal fragments of the simulated hash are arbitrary strings, because the model does not compute `toString(16)` of a float.
- Asynchrony is left out: the model runs each handler to completion. It does not model interleaving of handlers, a re-render between two setters, or the React state read by a closure being stale.
- `Promise.all` in `readMessage` is two independent oracle answers; its failure is "either read throws".
- String lengths count characters; JavaScript counts UTF-16 code units. A character outside the Basic Multilingual Plane counts as one here and as two in the source.
- AdminLayout.AvatarInitial: upper-cases ASCII letters only, because `toUpperCase` of other scripts depends on Unicode case tables.
- The `maxLength={280}` of the textarea is not modelled, so the model allows inputs that the browser would cut. The handler's own length guard, which is what the source relies on, is modelled.
- The `catch` branches of `loadContractState` and `loadNFTs` cannot be reached: `readMessage` never throws and a resolved timeout never throws. They are not modelled, and their toasts do not appear.
- Nft.NftPage.HandleMintNft: inside the mint's `try` only the two toast calls run code outside the page (the setters, `Math.random`, `Date.now` and the resolved timeout do not throw), so an error is modelled as thrown by one of those two toasts. An error raised by the `catch` block's own toast is not modelled.
- Nft.TokenNumber: requires the draw to lie in [0, 1), which is the range `Math.random()` promises; floating-point rounding of `draw * 10000` is not modelled.
- SmartContract.GasLimit: the estimate is a `bigint`; its 256-bit bound in the wallet library is not modelled.
- `isContractAvailable` and `getContractAddress` are modelled as helpers; no page in this model calls `isContractAvailable`.
