# Pacific Giftware scrapers, modelled in Dafny

The repository holds a family of Selenium scripts that log in to the
Pacific Giftware wholesale site and, for each item number, find the item's
page and read a product name, a unit price and a case quantity off it.
The result rows go to CSV or Excel files. This project models the
deterministic core of those scripts. The browser is modelled as a value:
a `Session` maps URLs to loaded pages, and a `Page` holds a title, markup,
visible text, text nodes and the elements each locator resolves to.
Over that browser the model covers:

- the identifier cleaning;
- the candidate-URL searches;
- every field-extraction cascade, each an ordered list of rules where the first match wins;
- the login verdicts;
- the per-item record loops;
- the spreadsheet column choice;
- the output-folder naming.

Shared modules:

- `Outcomes`: `Option` and `Result`.
- `Text`: Python's string methods (`lower`, `strip`, `split`, `replace`, `splitlines`, `in`).
- `Patterns`: the literal-then-digits regular expressions, as scanners over strings.
- `Cascade`: the first-match combinator `FirstMatch`, together with the loops that compute it. `FindFirst` is the break-on-first loop. `SweepGroups` is the nested "for each selector, for each element" loop with a sentinel test. `CollectLoop`, `RunSteps` and the nested `FlatMap` cover the remaining loop shapes.
- `Dom`: pages, locators, `find_element(s)`, waits as present/absent, and the title and heading rules.
- `Records`: the output row, the error row, the identifier cleaning, CSV and table reading, and the batch loop.
- `Pricing`: the price cascade of element sweep then regex amounts.

There is one module per script, following the script's own functions. Where a
script works by loops that reassign variables, each loop is a `method`
proved equal to a specification function. The properties the script
promises are proved as lemmas about that function. Each method's `ensures`
ties the method to that function.

## Model

| member | source | states |
|---|---|---|
| Text.Lower | final_scraper.py:164 | same length; each character lower-cased when it is an ASCII capital, all others kept |
| Text.Contains | comprehensive_filler.py:114 | `sub in s` holds exactly when `sub` occurs at some index of `s` |
| Text.BeforeFirst | comprehensive_filler.py:137-138 | `split(sep)[0]` is a prefix of `s` ending where the first `sep` starts, or all of `s` when `sep` is absent, and holds no `sep` |
| Text.AfterFirst | organized_scraper.py:102 | defined exactly when `sep` occurs; it is the rest of `s` after the first `sep` |
| Text.SecondPart | organized_scraper.py:102 | `split(sep)[1]` exists exactly when `sep` occurs in `s` |
| Text.RemoveAllRule | final_scraper.py:166 | `replace(pat, "")`: a text without `pat` is kept; otherwise the text before the first `pat` is kept, that `pat` is dropped and the rest is scanned the same way, so at least `len(pat)` characters go |
| Text.RemoveAllAt | final_scraper.py:166 | at the leftmost occurrence of `pat`, the text before it is kept and the scan resumes after it |
| Text.Remove | verify_items.py:86 | `replace(c, "")` removes every `c` and nothing else (as multisets); a text without `c` is kept |
| Text.Digits | pacificgiftware_scraper.py:265 | the joined digits are all digits, empty exactly when the text has none, and the whole text when it is all digits |
| Text.LStrip | simple_scraper.py:26-27 | a suffix of the input, starting at a non-space, after only whitespace |
| Text.RStrip | simple_scraper.py:26-27 | a prefix of the input, ending at a non-space, before only whitespace |
| Text.Strip | simple_scraper.py:26-27 | the input with leading and trailing whitespace removed: the result starts and ends with a non-space |
| Text.StripIdempotent | simple_scraper.py:26-27 | stripping twice equals stripping once |
| Text.FirstToken | organized_scraper.py:102 | `split()[0]` is missing exactly for all-whitespace text, else a non-empty run of non-space characters |
| Text.FirstDigitRun | extract_items.py:67-70 | `re.findall(r'\d+', s)[0]` is missing exactly when `s` has no digit, else the first maximal run of digits |
| Text.Lines | pacificgiftware_scraper.py:254 | `splitlines` gives no lines for empty text, lines holding no break, and the text itself when it has no break |
| Patterns.MatchAt | final_scraper.py:199-211 | a match's group has the capture's shape (digits, or digits `.` two digits) and occurs in the text |
| Patterns.MatchFrom | final_scraper.py:199-211 | the leftmost match start at or after `i`, with no match before it; none when nothing matches |
| Patterns.Search | working_login_scraper.py:155 | `re.search(..).group(1)`: a group of the right shape, taken from the leftmost match; missing exactly when no start matches |
| Patterns.FirstSearchRule | robust_batch2_scraper.py:247-252 | the earliest pattern with a match supplies the cascade's value; with no match anywhere the cascade gives nothing |
| Patterns.FirstSearchIsGroup | robust_batch2_scraper.py:247-252 | the first pattern of a cascade that matches gives text of the shared capture shape |
| Patterns.FirstAmountIsDollar | comprehensive_filler.py:214-218 | an amount found by the regex cascade starts with `$` followed by a digit group |
| Patterns.LabelledHasDollar | comprehensive_filler.py:208-218 | wherever `Label[:\s]*\$(\d+\.\d{2})` matches, `\$(\d+\.\d{2})` matches with the same group |
| Patterns.LabelledNeedsDollar | comprehensive_filler.py:208-218 | a labelled amount is found only in text where the bare dollar amount is found |
| Patterns.NoDollarNoLabelled | comprehensive_filler.py:208-218 | with no bare dollar amount, no labelled pattern of the cascade matches |
| Patterns.AmountsDecidedByDollar | comprehensive_filler.py:208-218 | a cascade trying `\$(\d+\.\d{2})` first and labelled amounts after gives exactly the bare dollar amount, `$` put back |
| Patterns.CodeThenSourceRule | working_batch2_scraper.py:83-103 | `C/N` in the name wins; otherwise the first page pattern that matches; otherwise the fallback; any other result is a run of digits |
| Cascade.FirstMatchIsWinner | robust_batch2_scraper.py:199-207 | the cascade is empty exactly when every rule fails, and otherwise equals the value of the rule that wins (first to yield) |
| Cascade.FirstMatchAppend | robust_batch2_scraper.py:199-207 | a cascade over two lists is the first list's value, else the second's |
| Cascade.FirstMatchSkip | simple_scraper.py:70-73 | rules that all fail can be dropped from the front |
| Cascade.FindFirst | robust_batch2_scraper.py:199-207 | the break-on-first loop returns the cascade's value and tries exactly the rules up to the winner |
| Cascade.CollectExactly | extract_items.py:46-50 | every value a rule yields is collected, and every collected value comes from some rule |
| Cascade.CollectHead | extract_items.py:46-50 | the collected list is empty exactly when the cascade is, and its head is the cascade's value |
| Cascade.CollectLoop | extract_items.py:46-50 | the appending loop computes the collected list |
| Cascade.FlatMapMember | verify_items.py:32-38 | a rule of the nested loops belongs to exactly one item's rule list |
| Cascade.FirstMatchFlatMap | verify_items.py:32-38 | the cascade over nested loops' rules equals the cascade over items of each item's own cascade |
| Cascade.RunAll | verify_items.py:85-92 | steps without `try` succeed together with all values in order, or fail with the first failing step's error |
| Cascade.RunSteps | verify_items.py:85-92 | the loop with no `try` computes `RunAll` |
| Cascade.SweepOrigin | final_scraper.py:181-193 | a sweep keeps its start value unless it accepted an element, and an accepted value is one the filter gave |
| Cascade.SweepHitFromSentinel | final_scraper.py:181-193 | from the sentinel, a sweep accepts something exactly when some element passes the filter |
| Cascade.SweepIsFirstMatch | robust_batch2_scraper.py:220-231 | from the sentinel, with no swept element that the filter reads as the sentinel, the nested break loop is the first match over all elements, and it reports a hit exactly when some element passes |
| Cascade.SweepFromValue | final_scraper.py:181-193 | started from a value other than the sentinel, only the first selector's elements can change it |
| Cascade.SweepGroups | robust_batch2_scraper.py:220-231 | the nested selector/element loop with its two `break`s computes `Sweep` |
| Dom.Navigate | final_scraper.py:148 | a page loads only from a URL the session serves; an unserved URL raises |
| Dom.FindElements | final_scraper.py:183 | `find_elements` raises exactly for a `:contains(` CSS selector |
| Dom.FindElement | working_login_scraper.py:147 | `find_element` succeeds exactly when `find_elements` gives a non-empty list, and gives its first element |
| Dom.Texts | robust_batch2_scraper.py:220-231 | `find_elements` inside `try/except: continue`: nothing for a refused selector, else the elements |
| Dom.Groups | robust_batch2_scraper.py:220-222 | one element list per selector, in order |
| Dom.FirstOnly | batch2_scraper.py:86-103 | `find_element` inside `try`: at most one text, present exactly when the locator resolves |
| Dom.With | robust_batch2_scraper.py:199-201 | one locator per selector string, in order, of the given strategy |
| Dom.FirstPresentEarliest | final_scraper.py:25-35 | `_first_present` settles on the earliest locator that resolves, and on none exactly when none does |
| Dom.FindPresent | final_scraper.py:25-35 | the locator scan computes the first present locator |
| Dom.FirstNonBlank | robust_batch2_scraper.py:199-207 | the name cascade is empty exactly when no selector has non-blank text, else the earliest one's stripped text |
| Dom.AcceptedIsAccepted | comprehensive_filler.py:106-120 | the URL the candidate search settles on loads and has an accepted title |
| Dom.FindAccepted | comprehensive_filler.py:106-120 | the candidate loop (skip a raise, break at the first accepted title) computes the cascade |
| Dom.TitlePrefixOr | working_login_scraper.py:143 | with " \| " in the title, its stripped first part, holding no " \| "; otherwise the fallback |
| Dom.HeadingOr | working_login_scraper.py:146-151 | a non-blank `h1` decides; otherwise the fallback |
| Records.ErrorRecord | batch2_scraper.py:125-136 | the raised row keeps the item and carries no price; it is never counted as 'Found' but is counted by `'Error' in status`; the exception message reads back from the status (`ErrorMessage`); a URL column only where the script writes one |
| Records.CleanId | comprehensive_filler.py:95 | the stripped identifier with every `Y` and `#` removed and nothing else changed (as multisets) |
| Records.RowItem | simple_scraper.py:26-27 | a row contributes exactly when its first cell is not blank, and contributes that cell stripped |
| Records.FirstCellsExactly | simple_scraper.py:23-27 | every non-blank row's stripped first cell is read, every value read comes from such a row, and each is non-empty and stripped |
| Records.ReadItems | simple_scraper.py:18-31 | the reader loop skips the header and computes the first cells |
| Records.ColumnAsText | comprehensive_filler.py:281 | one text per cell, a missing cell reading 'nan' |
| Records.MapItems | robust_batch2_scraper.py:302-307 | one result per item, in order |
| Pricing.DollarText | robust_batch2_scraper.py:224-225 | an element is a price exactly when its text holds `$`, and the price is that text stripped |
| Pricing.ElementsThenAmountsRule | comprehensive_filler.py:193-218 | an element price wins when there is one; only without one do the regex amounts run; a result other than the sentinel holds `$` |
| Pricing.ScanElementsThenAmounts | comprehensive_filler.py:193-218 | the selector loops and pattern loop compute the two-stage price |
| PacificGiftware.ToDict | pacificgiftware_scraper.py:84-91 | exactly the four keys; name and number copied; a missing price or quantity written as "" |
| PacificGiftware.RowRoundTrip | pacificgiftware_scraper.py:84-91 | a row reads back as the same product exactly when no optional field is the empty string |
| PacificGiftware.LineQuantity | pacificgiftware_scraper.py:255-271 | a line's quantity is a non-empty run of digits |
| PacificGiftware.LineQuantityMeaning | pacificgiftware_scraper.py:255-271 | only "case pack" lines count; one with a digit always yields; with `:` the second part's digits when it has any; without `:`, or when that part has no digit, all the line's digits, and nothing when the line has none |
| PacificGiftware.NotesQuantity | pacificgiftware_scraper.py:252-272 | a result is digits; nothing exactly when the notes are empty or no line yields digits (so also when no line says "case pack"); the first line that yields wins |
| PacificGiftware.QuantityOfLine | pacificgiftware_scraper.py:255-271 | the loop body for one line computes that line's quantity: nothing for a line without "case pack", else the colon part's digits, else the whole line's |
| PacificGiftware.ExtractCaseQuantityFromNotes | pacificgiftware_scraper.py:252-272 | the line loop with early returns computes the notes quantity |
| PacificGiftware.PriceText | pacificgiftware_scraper.py:332-344 | a text node is a price exactly when it is outside script/style, and its stripped text starts with `$` and holds a digit |
| PacificGiftware.UnitPriceIsEarliest | pacificgiftware_scraper.py:332-344 | the price is missing exactly when no text node qualifies, else the earliest qualifying one |
| PacificGiftware.NotesLabel | pacificgiftware_scraper.py:352 | the label found reads "notes:" ignoring case and surrounding space |
| PacificGiftware.ProductDetails | pacificgiftware_scraper.py:306-365 | the parse succeeds exactly when the page loads and shows an `h1`; it keeps the item number, names the product after the stripped `h1`, takes the price from the earliest qualifying text node (none exactly when no node qualifies) and reads the case quantity from the notes after the first "Notes:" label (none without a label) |
| PacificGiftware.GetProductDetails | pacificgiftware_scraper.py:306-365 | the parse with its two scanning loops computes `ProductDetails` |
| PacificGiftware.ItemProduct | pacificgiftware_scraper.py:496-508 | a failed item gives an empty name and no price or quantity; otherwise the parsed product |
| PacificGiftware.ProcessItems | pacificgiftware_scraper.py:468-508 | nothing is written for an empty list or when the login raises; otherwise one product per item, in order |
| FinalScraper.Lookup | final_scraper.py:25-35 | `_first_present` succeeds exactly when some locator resolves, and returns the earliest |
| FinalScraper.Login | final_scraper.py:37-102 | missing credentials raise before navigation; a finished login used the form's fields, submitted by button or else by the password field, and signed in exactly when a signal appears |
| FinalScraper.FormFoundEmailFound | final_scraper.py:48-69 | once the form has loaded, the email lookup always succeeds, on one of the form probes |
| FinalScraper.RunLogin | final_scraper.py:37-102 | the login steps compute `Login` |
| FinalScraper.TitleName | final_scraper.py:163-169 | a title gives a name exactly when it is not "" or "Loading...", mentions "pacific" in any case, and is over three characters once " \| Pacific Trading" is removed |
| FinalScraper.TitleNameShape | final_scraper.py:163-169 | a title-derived name is stripped and longer than three characters |
| FinalScraper.NameText | final_scraper.py:185-186 | a name element counts exactly when its stripped text is over five characters and not "Loading..." |
| FinalScraper.PriceText | final_scraper.py:258-263 | a price text holds `$`, is between 3 and 29 characters, and names none of cart, total, shipping, tax and free |
| FinalScraper.PageRecord | final_scraper.py:151-273 | the status is 'Found' or 'Processing'; not logged in, the price stays 'Login required' |
| FinalScraper.Scrape | final_scraper.py:142-283 | the status is 'Error' exactly when the page fails to load; otherwise the page's row |
| FinalScraper.StatusRule | final_scraper.py:156-189 | 'Found' exactly when the title gives a name or some name element is accepted |
| FinalScraper.NameOrigin | final_scraper.py:171-193 | a name other than the sentinel is the title-derived one or an accepted element text |
| FinalScraper.NameFirstMatch | final_scraper.py:171-193 | without a title-derived name, the name is the first accepted element text across the selectors in order, or the sentinel when none is accepted (given that no element reads exactly as the sentinel) |
| FinalScraper.TitleNameKept | final_scraper.py:171-193 | with a title-derived name, only the first selector (`//h1`) can replace it |
| FinalScraper.DigitRunNotSentinel | final_scraper.py:227 | a digit run is never "Not found" |
| FinalScraper.SourceCaseRule | final_scraper.py:199-211 | case patterns in fixed order; the first with any match supplies its first match |
| FinalScraper.SourceCaseDigits | final_scraper.py:199-211 | what the markup patterns find is a non-empty run of digits |
| FinalScraper.CaseRule | final_scraper.py:213-234 | without a markup match, the first digit run among the case elements; with one, only the first selector can overwrite it |
| FinalScraper.CaseDigits | final_scraper.py:213-234 | any case value found is a non-empty run of digits |
| FinalScraper.PriceRule | final_scraper.py:237-267 | logged in, the price is the first accepted text across selectors and their elements, and that text satisfies the price test |
| FinalScraper.ScrapeProductEnhanced | final_scraper.py:142-283 | the cascades as written compute `Scrape` |
| FinalScraper.Run | final_scraper.py:298-326 | one login attempt, then one row per CSV identifier, in order, with that login's verdict |
| ComprehensiveFiller.WorkingUrlOrder | comprehensive_filler.py:103-121 | the product path wins when accepted; the item path only otherwise; none exactly when neither is accepted |
| ComprehensiveFiller.ProductNameRule | comprehensive_filler.py:132-149 | a non-blank `h1` decides; else the title's stripped first " \| " part; else "Name not available" |
| ComprehensiveFiller.CaseQuantityRule | comprehensive_filler.py:151-176 | `C/N` in the name wins; else the first page-source pattern that matches; else "Not specified"; any other value is digits |
| ComprehensiveFiller.SentinelHasNoDollar | comprehensive_filler.py:178-221 | the price sentinel holds no `$` |
| ComprehensiveFiller.UnitPriceRule | comprehensive_filler.py:178-221 | without login the sentinel; logged in, an element price wins, else the bare dollar amount with `$` put back; any price holds `$` |
| ComprehensiveFiller.Extract | comprehensive_filler.py:91-246 | none accepted gives exactly the 'Item not found' / 'N/A' / 'N/A' / 'Item not available' / 'Not Found' row with the original identifier; otherwise the found page's row carrying the working URL; the status is 'Found' exactly when a candidate is accepted |
| ComprehensiveFiller.ReadPage | comprehensive_filler.py:132-230 | the name, case and price loops compute the page row |
| ComprehensiveFiller.ExtractComprehensiveData | comprehensive_filler.py:91-246 | the candidate loop and page reading compute `Extract` |
| ComprehensiveFiller.AliasColumn | comprehensive_filler.py:270 | a column matches exactly when its lower-cased name contains some lower-cased alias |
| ComprehensiveFiller.ItemColumnRule | comprehensive_filler.py:266-276 | the earliest matching column in file order, and none exactly when no column matches |
| ComprehensiveFiller.FillComprehensiveData | comprehensive_filler.py:266-296 | no item column scrapes nothing; otherwise one row per cell as text, in order |
| WorkingLogin.VerdictAfterClick | working_login_scraper.py:84-106 | every check after the click returns `True` |
| WorkingLogin.SuccessfulLogin | working_login_scraper.py:34-114 | `True` exactly when the login page loads and its three controls resolve |
| WorkingLogin.LoginIgnoresOutcome | working_login_scraper.py:85-106 | the page after the click never changes the verdict |
| WorkingLogin.PricedText | working_login_scraper.py:180-181 | a price element counts exactly when its stripped text is non-blank and holds `$` |
| WorkingLogin.Scrape | working_login_scraper.py:116-233 | a failed load gives the error row; a "not found" title gives the not-found row with the URL; otherwise the page row |
| WorkingLogin.PageRecordRule | working_login_scraper.py:142-217 | name from `h1`, else title prefix, else default; case only from `C/N` in the name; price from the elements, else the bare dollar amount; any price holds `$` |
| WorkingLogin.ScrapeWithPricing | working_login_scraper.py:116-233 | the scrape as written computes `Scrape` |
| WorkingLogin.Run | working_login_scraper.py:238-262 | nothing is scraped when login fails; otherwise one row per fixed item, in order |
| WorkingBatch2.Scrape | working_batch2_scraper.py:27-128 | raw identifier in the URL; a failed load gives the error row; a "not found" title gives the not-found row; otherwise the page row |
| WorkingBatch2.PageRecordRule | working_batch2_scraper.py:50-113 | name from `h1`, else title prefix, else the whole title; price only from the regex amounts, `$` first; case from `C/N` in the name first; status 'Found' |
| WorkingBatch2.ScrapeItemData | working_batch2_scraper.py:27-128 | the reassigning loops compute `Scrape` |
| WorkingBatch2.Run | working_batch2_scraper.py:132-154 | one row per fixed identifier, in order, with no login |
| RobustBatch2.LoginForm | robust_batch2_scraper.py:42-150 | the form is found exactly when each of the three strategy cascades resolves, each at its earliest strategy |
| RobustBatch2.EnhancedLogin | robust_batch2_scraper.py:31-176 | `True` exactly when the login page loads and the form is found |
| RobustBatch2.LoginIgnoresOutcome | robust_batch2_scraper.py:166-172 | the URL after the click never changes the verdict |
| RobustBatch2.RepeatedEmailStrategy | robust_batch2_scraper.py:45-62 | the repeated fourth email strategy never decides which field is found |
| RobustBatch2.RunEnhancedLogin | robust_batch2_scraper.py:31-176 | the three strategy loops compute the verdict and the form |
| RobustBatch2.Scrape | robust_batch2_scraper.py:178-275 | a failed load gives the error row; otherwise the page row |
| RobustBatch2.PriceNotFoundHasNoDollar | robust_batch2_scraper.py:210 | the price sentinel holds no `$` |
| RobustBatch2.PageRecordRule | robust_batch2_scraper.py:195-262 | the name is the text of the earliest selector whose element is present and non-blank (every earlier one absent or blank), else the default; the first `$` element across the selectors; the case quantity is the match of the earliest pattern that matches, the default when none does, and otherwise digits; 'Found' exactly when a name was found |
| RobustBatch2.CaseRule | robust_batch2_scraper.py:240-252 | the earliest case pattern with a match supplies the quantity, a run of digits; no match leaves nothing |
| RobustBatch2.ScrapeItemData | robust_batch2_scraper.py:178-275 | the name, price and case loops compute `Scrape` |
| RobustBatch2.Run | robust_batch2_scraper.py:290-307 | the login result decides nothing: every fixed identifier is scraped, in order |
| Batch2.LoginToPacificGiftware | batch2_scraper.py:28-64 | `True` exactly when the form resolves and the lower-cased URL after submitting lacks "login" |
| Batch2.LoginUrlTestIgnoresCase | batch2_scraper.py:54-64 | a URL showing "LOGIN" in capitals is a failure too |
| Batch2.ProductName | batch2_scraper.py:77-83 | the first `h1`'s stripped text even when blank; else the combined selector's; else "Name not found" |
| Batch2.UnitPriceRule | batch2_scraper.py:86-103 | the earliest of the five usable selectors whose first element holds `$`, stripped; the refused last selector never decides |
| Batch2.CaseRule | batch2_scraper.py:106-113 | the digits of the first `C/N` in the markup, else "Case info not found" |
| Batch2.Scrape | batch2_scraper.py:66-136 | `/item/` path; a failed load gives the error row; otherwise the page row, always 'Found' |
| Batch2.ScrapeItemData | batch2_scraper.py:66-136 | the nested fallbacks and price loop compute `Scrape` |
| Batch2.Run | batch2_scraper.py:138-190 | nothing is scraped when login fails; otherwise one row per fixed identifier, in order |
| Organized.KeepSafe | organized_scraper.py:26 | keeps exactly the letters, digits, spaces, `-` and `_`, in order |
| Organized.SafeName | organized_scraper.py:26 | only safe characters, no trailing whitespace, all taken from the input |
| Organized.SafeNameIdempotent | organized_scraper.py:26 | sanitising a sanitised name changes nothing |
| Organized.SafeNameKeepsSafe | organized_scraper.py:26 | an already safe name without trailing whitespace is kept whole |
| Organized.CreateOutputFolder | organized_scraper.py:18-34 | a name (or the auto name when missing) is sanitised; an empty safe name raises; otherwise that folder exists |
| Organized.EnterRaisesAsWritten | organized_scraper.py:146-149 | pressing Enter at the folder prompt passes "" and makes the folder creation raise |
| Organized.AutoName | organized_scraper.py:20-23 | the auto name 'results_' plus the stamp is non-empty and already safe |
| Organized.CreateOutputFolderFixed | organized_scraper.py:18-34 | the corrected creation always makes a non-empty safe folder, the given name when it sanitises to something, else the auto name |
| Organized.FixedAgreesWhereWrittenSucceeds | organized_scraper.py:18-34 | wherever the written code succeeds, the corrected one makes the same folder |
| Organized.Login | organized_scraper.py:48-75 | `True` exactly when the login page loads and its three controls resolve |
| Organized.CaseToken | organized_scraper.py:100-104 | a case token is found only in text holding `C/` |
| Organized.CaseTokenRule | organized_scraper.py:100-104 | the token is the first run of non-space after the first `C/`, holds no `C/` and ends at whitespace, the end or the next `C/`; none exactly when that part is blank or `C/` is absent |
| Organized.ItemPage | organized_scraper.py:81-84 | the `/item/` path of the cleaned identifier |
| Organized.Scrape | organized_scraper.py:77-121 | the row keeps the identifier; a failed load gives the error row; otherwise the page row |
| Organized.PageRecordRule | organized_scraper.py:77-121 | name from the first `h1` unstripped; price from the first price element unstripped; the case quantity is the `C/` token of the first span holding `C/` when that span yields one, the default without such a span, and any found value is whitespace-free; the status is 'Found' |
| Organized.ScrapeItemData | organized_scraper.py:77-121 | the three `try` blocks compute `Scrape` |
| Organized.ItemColumnRule | organized_scraper.py:161-165 | the first alias in priority order that is exactly a column name; none exactly when no alias is one |
| Organized.PickItemColumn | organized_scraper.py:161-165 | the alias loop computes the column |
| Organized.TypedItems | organized_scraper.py:175-180 | no more identifiers than answers |
| Organized.TypedItemsRule | organized_scraper.py:175-180 | each identifier is a stripped, non-empty answer, in order, up to the first blank answer |
| Organized.ReadTypedItems | organized_scraper.py:175-180 | the prompt loop computes the typed identifiers |
| Organized.ScrapeWithCustomFolder | organized_scraper.py:142-202 | the folder is made as written and comes first: a name that sanitises to "" (Enter at the prompt) raises and stops the run; then no column, no items and failed login each stop it; otherwise one row per identifier, in order |
| VerifyItems.ForIdentifier | verify_items.py:14-18 | the three template URLs of one identifier, all built from it |
| VerifyItems.ItemCandidatesOrder | verify_items.py:14-38 | the nine candidates: bare, then `Y`, then `#` prefix, each in template order |
| VerifyItems.TestItemFormatsRule | verify_items.py:32-66 | none exactly when no candidate is kept; otherwise a kept candidate built from a prefix and an item, the earliest in loop order |
| VerifyItems.ProbeItem | verify_items.py:35-63 | the prefix and template loops for one item compute its cascade |
| VerifyItems.TestFormats | verify_items.py:31-66 | the item loop, returning at the first kept page, computes the probe |
| VerifyItems.KnownId | verify_items.py:86 | every `Y` removed and nothing else |
| VerifyItems.CheckOne | verify_items.py:86-97 | a check succeeds exactly when the page loads, with its error otherwise |
| VerifyItems.TestKnownWorkingItems | verify_items.py:84-105 | the loop without `try` computes the checks, the first raise ending it |
| VerifyItems.RunVerification | verify_items.py:113-119 | known checks first, whose raise ends the run; then the format probe over the new items |
| ExtractItems.ChosenColumnRule | extract_items.py:46-75 | the earliest keyword column; none holding a keyword gives the first column; none only for a table without columns |
| ExtractItems.CellItem | extract_items.py:61-84 | missing, blank and 'nan' cells give nothing; otherwise the first digit run, or the stripped text when it has no digit |
| ExtractItems.Filled | extract_items.py:87 | keeps exactly the non-empty values |
| ExtractItems.FilledKeepsExtracted | extract_items.py:87 | the filter drops nothing the cells gave |
| ExtractItems.UniqueFrom | extract_items.py:87 | no repeats, and exactly the values not already seen |
| ExtractItems.Unique | extract_items.py:87 | `list(set(..))`: no repeats and the same set of values |
| ExtractItems.ExtractRule | extract_items.py:46-87 | the identifiers have no repeats or empties, and as a set are the chosen column's extracted values, each from one cell |
| ExtractItems.UniqueLoop | extract_items.py:87 | the seen-set loop computes the de-duplication |
| ExtractItems.ExtractItemsLoop | extract_items.py:14-108 | the column loop, value loop, filter and de-duplication compute the extractor |
| SimpleScraper.NetworkErrorRecord | simple_scraper.py:94-101 | the failed-request row keeps the item, carries no price, is counted among the summary's errors, and ends with the request's error message |
| SimpleScraper.Scrape | simple_scraper.py:33-109 | the `/product/` page's row, or the failed-request row |
| SimpleScraper.CaseSelector | simple_scraper.py:64-73 | exactly the last four case selectors hold `:contains(` |
| SimpleScraper.CaseSelectorsSkipped | simple_scraper.py:64-73 | only the first three case selectors can decide |
| SimpleScraper.CaseQuantityRule | simple_scraper.py:70-84 | a `CASE PACK` match in the page text overrides; else the earliest present selector's stripped text; else "Not found" |
| SimpleScraper.PageRecordRule | simple_scraper.py:51-92 | earliest non-blank title, else "Not found"; price 'Login required'; 'Scraped (Basic)' exactly when a name was found, else 'Not Found' |
| SimpleScraper.ScrapeProductBasic | simple_scraper.py:33-101 | the title loop, the selector loop and the page-text override compute `Scrape` |
| SimpleScraper.ErrorIffNetworkFailure | simple_scraper.py:147-148 | a row counts as an error exactly when its request failed |
| SimpleScraper.SummaryCounts | simple_scraper.py:147-148 | the summary's error count is the number of failed requests, and the successes are the rest |
| SimpleScraper.ProcessItemsSimple | simple_scraper.py:120-138 | no identifiers read means nothing is scraped; otherwise one row per identifier, in order |

## Left out

- Process and browser plumbing is not modelled. This covers driver construction, Chrome options, `requests` and BeautifulSoup parsing. The page is an abstract value and navigation is a lookup in the session.
- Waits, sleeps and polling deadlines are not modelled. A wait is "the locator resolves in the page" or "it does not". `_first_present` is one sweep with no clock.
- XPath and CSS are not evaluated. A locator resolves to whatever texts the page assigns it. The only CSS rule modelled is that a `:contains(` selector raises.
- Regular expressions are not modelled in general. Only the literal-then-digits and dollar-amount patterns the scripts use are modelled, as scanners.
- Text handling is ASCII-only: `lower`, `isdigit`, `isalnum` and `re.IGNORECASE` cover ASCII letters and digits only. Whitespace follows Python's `isspace`.
- `get_text(strip=True)` and Selenium's `.text` are taken to be the text stored for the element.
- The logins of pacificgiftware_scraper.py and comprehensive_filler.py are not modelled; their results are a parameter, because they only drive the browser. For pacificgiftware_scraper.py `loggedIn` says whether `login` returned; when it raises, `process_items` writes nothing. For comprehensive_filler.py it is `withLogin`.
- The page after a login click is a parameter (`after`).
- Credentials from the environment, `input` or `getpass`, and hard-coded ones, are not modelled; the email and password are parameters.
- File I/O is not modelled: opening the CSV, pandas and openpyxl reading, and writing the CSV or Excel output (`write_results`, `save_results`, column widths). A table is a value, a file that cannot be read is `None`, and only the rows written are modelled.
- The command-line argument checks, `os.path.exists` and the interactive `__main__` menus are I/O.
- The timestamp from `datetime.now()` is a parameter (`stamp`).
- A `makedirs` failure other than the empty name is not modelled.
- Typed input that ends at end-of-file is treated like a blank answer.
- ExtractItems.Unique: `list(set(..))` has no specified order in Python. The model keeps first occurrences in order, and the lemmas state only no repeats and set equality.
- Cells of a spreadsheet are text; `str(value)` of numbers (such as `123.0`) is not modelled.
- The 'Parse Error' row of simple_scraper.py cannot be produced by the model. This is because parsing a page value cannot raise.
- The diagnostic scripts, the dev-environment wrappers and formatted_filled_data.py are not part of this model.
- There is no concurrency in the scripts.
- FinalScraper.NameFirstMatch: stated only for pages where no name element's stripped text reads exactly 'Not found'. Such an element sets the name to the sentinel, so the selector loop runs on and the first-match reading no longer holds. `NameSweep` itself models that case as written.

## Findings

| source | as written | input that shows it | evidently intended | confidence | as-written member | corrected member |
|---|---|---|---|---|---|---|
| organized_scraper.py:18-34, 146-149 | the prompt says Enter gives an auto-generated folder, but Enter passes `""`, which is not `None`. The auto name is skipped, the safe name is `""` and `os.makedirs('')` raises | pressing Enter at the output-folder prompt | an empty answer uses the `results_<timestamp>` name | not executed | Organized.EnterRaisesAsWritten | Organized.CreateOutputFolderFixed |
