# INCIDecoder scraper, modelled in Dafny

This project models the core of the INCIDecoder scraper and proves
properties of the model. The scraper finds cosmetic product pages on
incidecoder.com, extracts each product and its ingredient list from the
page's HTML and JSON-LD, and keeps brands, products and ingredient links
in a small relational store.

The modules follow the scraper's structure:

- `Text`, `Ordering`, `Json`, `Markup`: the string, ordering, JSON and
  HTML-attribute behaviour the scraper relies on, over ASCII.
  - `Text`: `lower`, `strip`, `split`, `title` and whitespace normalisation.
  - `Ordering`: Python's ordering of strings, `sorted` over sets, and
    first-occurrence deduplication.
  - `Json`: JSON values, the depth-first node walk and the search for a
    `Product` node.
  - `Markup`: attribute lookup, class tokens and the `_class_matches` test.
- `Http`: `urljoin` under the scraper's directory base,
  `HttpClient.build_url`, the retry decision of `fetch` and the fetch loop. The network is an oracle, and the waits are returned instead
  of slept.
- `Regions`, `Ingredients`, `Tooltips`, `Extractor`, `ExtractorLaws`: the
  state that `ProductHTMLParser` keeps between events.
  - `Regions`: depth counters, and the function and highlight blocks.
  - `Ingredients`: the ingredient dictionary, `_ingredient_key`,
    `_register_ingredient_extra`, and the two-index deduplication at the end
    of `parse`.
  - `Tooltips`: ingredient contexts and their tooltips.
  - `Extractor`: the three handlers as steps on one record of the parser's
    fields.
  - `ExtractorLaws`: proves that every step keeps that record well formed.
- `Products`, `Parser`: the `Product` record and `parse`. `Parser` holds
  the `ProductHTMLParser` class, whose methods update its fields in place.
- `Traversal`, `Discovery`: product discovery.
  - `LinkCollector`.
  - The sitemap strategy.
  - The brand-index strategy, with its page-by-page walk over letter buckets.
  - The breadth-first walk over one brand's paginated pages.
  - `discover_product_urls`, which merges the strategies' streams without
    repeats.
- `Storage`: `DataStore`.
  - The `brands`, `products` and `product_ingredients` tables are sequences
    of rows.
  - The uniqueness and primary-key constraints are the class invariant.
  - Every statement the scraper issues is a method proved against a
    function of the old tables.
- `Coordinator`: `fetch_product` and `scrape`.

Across modules, the site is a value: what `fetch` delivers for each URL,
the HTML tokenizer, the sitemap XML parser, and the `urljoin` of a brand
page's URL and one of its `?page=` links. Every other `urljoin` the scraper
makes resolves a link under `base_url + "/"`, and that one is modelled in
`Http.UrlJoin`.

## Model

| member | source | states |
|---|---|---|
| Text.Lower | src/incidecoder_scraper/scraper.py:783-789 | `lower()` keeps the length and lower-cases each character |
| Text.LowerIdempotent | src/incidecoder_scraper/scraper.py:783-789 | lower-casing twice is lower-casing once, so a key made from a lower-cased string is stable |
| Text.OrElse | src/incidecoder_scraper/scraper.py:710-711 | `a or b` on optional strings: `a` when it is a non-empty string, otherwise `b` |
| Text.LStrip | src/incidecoder_scraper/scraper.py:800-802 | `lstrip()` drops exactly a whitespace-only prefix and leaves a non-space first character |
| Text.RStrip | src/incidecoder_scraper/scraper.py:800-802 | `rstrip()` drops exactly a whitespace-only suffix and leaves a non-space last character |
| Text.Strip | src/incidecoder_scraper/scraper.py:222 | `strip()` is no longer than its input, empty only for all-whitespace input, and otherwise starts and ends with non-whitespace |
| Text.StripSpan | src/incidecoder_scraper/scraper.py:222 | `strip()` is a contiguous slice of its input with only whitespace before and after it, and is empty exactly when the input is all whitespace |
| Text.LStripChar | src/incidecoder_scraper/scraper.py:81 | `lstrip("/")` is a suffix of its input, everything it removes is `/`, and what remains does not start with `/` |
| Text.RStripChar | src/incidecoder_scraper/scraper.py:717 | `rstrip("/")` is a prefix of its input, everything it removes is `/`, and what remains does not end with `/` |
| Text.CutAt | src/incidecoder_scraper/scraper.py:146 | `href.split("#", 1)[0]` is the prefix before the first `#` and holds no `#` |
| Text.AfterLast | src/incidecoder_scraper/scraper.py:717 | `split("/")[-1]` is a suffix holding no `/` that is either the whole text or preceded by `/`, so it is the longest such suffix |
| Text.ReplaceChar | src/incidecoder_scraper/scraper.py:718 | `replace("-", " ")` keeps the length, turns every `-` into a space and keeps every other character |
| Text.Title | src/incidecoder_scraper/scraper.py:718 | `title()` keeps the length |
| Text.Split | src/incidecoder_scraper/scraper.py:705 | `split(",")` gives at least one piece, and no piece holds the separator |
| Text.SplitJoin | src/incidecoder_scraper/scraper.py:705 | joining the pieces of `split(c)` with `c` gives the input back |
| Text.JoinSplit | src/incidecoder_scraper/scraper.py:705 | splitting a `c`-join of one or more `c`-free pieces gives the pieces back |
| Text.WordLength | src/incidecoder_scraper/scraper.py:802 | the first word ends at the first whitespace |
| Text.Words | src/incidecoder_scraper/scraper.py:802 | `split()` gives non-empty, space-free words, and none exactly when the text is all whitespace |
| Text.WordsContent | src/incidecoder_scraper/scraper.py:802 | the words of a text, glued together, are exactly its non-whitespace characters, in order |
| Text.WordsOfJoin | src/incidecoder_scraper/scraper.py:802 | splitting a single-space join of non-empty, space-free words gives the words back |
| Text.StrippedNonBlank | src/incidecoder_scraper/scraper.py:801 | the stripped non-blank chunks are non-empty with non-space heads, and none remain exactly when every chunk is blank |
| Text.StrippedNonBlankKeeps | src/incidecoder_scraper/scraper.py:801 | every chunk that is not blank is kept, stripped, and every kept piece is some chunk, stripped and non-empty |
| Text.JoinWordsNormalized | src/incidecoder_scraper/scraper.py:802 | joining words with single spaces gives normalized text, empty exactly when there are no words |
| Text.JoinHasNonSpace | src/incidecoder_scraper/scraper.py:801 | joining at least one non-blank chunk gives a text that is not all whitespace |
| Text.NormalizeTextShape | src/incidecoder_scraper/scraper.py:799-802 | `_normalize_text` is empty exactly when every chunk is blank, and its result is normalized (no edge or double spaces) |
| Text.NormalizeTextWords | src/incidecoder_scraper/scraper.py:799-802 | `_normalize_text` is the words of all the chunks joined by single spaces; they are the words of the chunks joined by spaces, and splitting the result gives them back |
| Text.NatToString | src/incidecoder_scraper/scraper.py:911-913 | a page number is written as a non-empty run of digits whose decimal value is the number, with no leading zero except in `0` |
| Ordering.LessIrreflexive | src/incidecoder_scraper/scraper.py:645 | Python's string order is irreflexive |
| Ordering.LessTransitive | src/incidecoder_scraper/scraper.py:645 | Python's string order is transitive |
| Ordering.LessTotal | src/incidecoder_scraper/scraper.py:645 | any two distinct strings are ordered one way or the other |
| Ordering.LessAsymmetric | src/incidecoder_scraper/scraper.py:645 | Python's string order is asymmetric |
| Ordering.StrictlySortedNoDup | src/incidecoder_scraper/scraper.py:645 | a strictly sorted list has no repeats |
| Ordering.Insert | src/incidecoder_scraper/scraper.py:645 | inserting into a sorted list keeps it strictly sorted and adds exactly the new element |
| Ordering.SortedUnique | src/incidecoder_scraper/scraper.py:512 | `sorted({l for l in links if l})` is strictly sorted and holds exactly the non-empty links |
| Ordering.SortSet | src/incidecoder_scraper/scraper.py:645 | `sorted(brand_links)` is strictly sorted and holds exactly the set's members |
| Ordering.SortedByMembers | src/incidecoder_scraper/scraper.py:645 | two strictly sorted lists with the same members are equal, so `sorted` of a set has one result |
| Ordering.Dedup | src/incidecoder_scraper/scraper.py:147-149 | appending only unseen elements gives a repeat-free list with the same members |
| Ordering.DedupSnoc | src/incidecoder_scraper/scraper.py:147-149 | one more element is appended exactly when it is new |
| Ordering.NewOf | src/incidecoder_scraper/scraper.py:863-866 | what a later stream adds holds only elements it has and earlier streams lacked |
| Ordering.DedupConcat | src/incidecoder_scraper/scraper.py:860-866 | deduplicating two streams in turn is deduplicating the first, then appending the second's new elements |
| Ordering.FirstIndex | src/incidecoder_scraper/scraper.py:147-149 | the position of the first occurrence of an element |
| Ordering.DedupFirstSeenOrder | src/incidecoder_scraper/scraper.py:147-149 | the deduplicated list keeps elements in the order of their first occurrence |
| Json.Lookup | src/incidecoder_scraper/scraper.py:661 | a member lookup finds nothing exactly when no member has the key, and otherwise finds the value of the last member with that key, as the dict `json.loads` builds keeps it |
| Json.LookupConcat | src/incidecoder_scraper/scraper.py:649 | a key looked up in two runs of members is found in the later run when it is there, and in the earlier run otherwise |
| Json.Canonical | src/incidecoder_scraper/scraper.py:649 | the object `json.loads` builds keeps one member per key, taken from the members, with every lookup unchanged |
| Json.CanonicalOfDistinct | src/incidecoder_scraper/scraper.py:649 | members with distinct keys are already canonical |
| Json.Or | src/incidecoder_scraper/scraper.py:683 | `a or b` on JSON values: `a` when truthy, otherwise `b` |
| Json.AsText | src/incidecoder_scraper/scraper.py:664-665 | a JSON value is text exactly when it is a string |
| Json.FirstOf | src/incidecoder_scraper/scraper.py:777-781 | `_first_of`: the first item of a non-empty list, nothing for an empty list, and any other value as it is |
| Json.Flatten | src/incidecoder_scraper/scraper.py:767-775 | the concatenated walks hold exactly the nodes of some part |
| Json.Nodes | src/incidecoder_scraper/scraper.py:767-775 | `_iter_json_nodes` yields only objects; an object comes first in its own walk, and a scalar yields nothing |
| Json.MemberWalks | src/incidecoder_scraper/scraper.py:770-771 | an object's walk continues with the walk of each value of its canonical members (one per key, holding the key's last value), in order |
| Json.FirstProduct | src/incidecoder_scraper/scraper.py:647-657 | finds nothing exactly when no node is a `Product`/`ProductGroup`; otherwise it finds the first such node |
| Json.FirstProductAgrees | src/incidecoder_scraper/scraper.py:652-653 | where no `@type` is a list or an object, the search as written and the corrected one agree |
| Json.ListTypeAbortsSearch | src/incidecoder_scraper/scraper.py:652-653 | with a list-typed node before the product, the search as written raises while the corrected one finds the product |
| Http.UrlJoin | src/incidecoder_scraper/scraper.py:81 | `urljoin(dir, ref)` under a directory base: an empty reference gives the base; one in a scheme other than the base's is kept as it is; a `//host` reference takes the base's scheme; one in the base's own resolving scheme keeps its authority or is appended to the base; any other reference without a scheme is appended to the base |
| Http.SchemeOf | src/incidecoder_scraper/scraper.py:81 | a scheme is read only before the first `:`, and is that text lower-cased |
| Http.AfterScheme | src/incidecoder_scraper/scraper.py:81 | a reference with a scheme is its scheme text, a colon and the rest; one without is all rest |
| Http.SchemeOfAbsolute | src/incidecoder_scraper/scraper.py:79-81 | `http://` and `https://` URLs have the schemes `http` and `https`, and the rest follows the colon |
| Http.NoSchemeBefore | src/incidecoder_scraper/scraper.py:81 | a `/` before any `:` means a reference has no scheme |
| Http.JoinAbsolute | src/incidecoder_scraper/scraper.py:79-81 | `urljoin` keeps an http(s) reference as it is |
| Http.JoinUnderBase | src/incidecoder_scraper/scraper.py:81 | under an absolute base, a reference without a scheme and without a leading `/` is appended to `base/`, and every join is absolute or the reference itself |
| Http.JoinNoScheme | src/incidecoder_scraper/scraper.py:81 | under an absolute base, a non-empty reference without a scheme or a leading `/` is appended to `base/` |
| Http.SameSchemeJoin | src/incidecoder_scraper/scraper.py:81 | a reference in the absolute base's own scheme joins to an absolute URL |
| Http.Resolve | src/incidecoder_scraper/scraper.py:310 | `urljoin(base_url + "/", ref.lstrip("/"))`: a reference without a scheme lands under an absolute base; an http(s) URL, or a reference in a scheme other than the base's (`mailto:`), is kept as it is; under an absolute base the result is absolute or the reference itself |
| Http.BuildUrl | src/incidecoder_scraper/scraper.py:78-81 | `build_url` returns an http(s) URL unchanged, and under an absolute base it turns every site reference into an absolute URL |
| Http.BuildUrlIdempotent | src/incidecoder_scraper/scraper.py:78-81 | building a URL twice is building it once |
| Http.BuildUrlOfPath | src/incidecoder_scraper/scraper.py:78-81 | a site path is appended to the base |
| Http.PrefixedSitePath | src/incidecoder_scraper/scraper.py:81 | a link under a site prefix such as `/products/` is a site reference with no scheme after its leading `/` |
| Http.Backoff | src/incidecoder_scraper/scraper.py:100 | the wait before a retry never exceeds 60 seconds |
| Http.BackoffMonotone | src/incidecoder_scraper/scraper.py:100 | waits are positive and never shrink from one attempt to the next |
| Http.BackoffDoubles | src/incidecoder_scraper/scraper.py:100 | below the cap, each wait is the previous one doubled, capped at 60 |
| Http.Decide | src/incidecoder_scraper/scraper.py:90-127 | a 200 response delivers its body; the client retries exactly on a transient status or network error while attempts remain; any other outcome raises the matching error |
| Http.RetryBound | src/incidecoder_scraper/scraper.py:98 | once the attempt number exceeds `max_retries`, the client never retries |
| Http.RetriedSnoc | src/incidecoder_scraper/scraper.py:85-110 | a further retry extends the record of retried attempts |
| Http.Attempt | src/incidecoder_scraper/scraper.py:83-127 | the loop ends on the first attempt that is not retried, with that attempt's body or error; it makes at most `max_retries` retries and waits the backoff before each |
| Http.HttpClient.constructor | src/incidecoder_scraper/scraper.py:45-63 | the base URL is kept without trailing slashes, along with the retry settings |
| Http.HttpClient.Fetch | src/incidecoder_scraper/scraper.py:83-127 | `fetch` builds the URL, then behaves as `Attempt` on it |
| Markup.Lookup | src/incidecoder_scraper/scraper.py:220 | an attribute is missing exactly when no pair carries its name |
| Markup.Attr | src/incidecoder_scraper/scraper.py:220 | `attr_map.get` has a value exactly when the attribute is present with a value |
| Markup.StrippedOrNone | src/incidecoder_scraper/scraper.py:311 | a stripped hint is non-empty, and absent exactly when the attribute is missing or blank |
| Markup.TokensAsWritten | src/incidecoder_scraper/scraper.py:221-222 | the class split as written fails exactly on a valueless attribute |
| Markup.ClassTokens | src/incidecoder_scraper/scraper.py:221-223 | class tokens are non-empty and space-free; they agree with the code as written wherever it does not raise, and a valueless class has none |
| Markup.ValuelessClassAborts | src/incidecoder_scraper/scraper.py:221-222 | on `<span class>`, the handler as written raises, while the corrected reading finds no class |
| Markup.ClassMatchesSetwise | src/incidecoder_scraper/scraper.py:791-797 | `_class_matches` depends only on the set of tokens |
| Markup.ElementNamesBlock | src/incidecoder_scraper/scraper.py:791-797 | a class `block__element` also matches `block` |
| Regions.CounterOpen | src/incidecoder_scraper/scraper.py:240-246 | a region's depth counter starts at 1 on its opening tag and otherwise counts every tag inside the region |
| Regions.CounterClose | src/incidecoder_scraper/scraper.py:598-601 | an end tag lowers a positive depth by one and leaves zero at zero |
| Regions.CounterBalanced | src/incidecoder_scraper/scraper.py:240-246 | an end tag undoes its start tag's effect on a depth counter |
| Regions.BlockOpen | src/incidecoder_scraper/scraper.py:272-306 | an opening function or highlight element pushes a fresh block; any other tag deepens the innermost block |
| Regions.BlockTitleStart | src/incidecoder_scraper/scraper.py:372-376 | a heading tag inside a block is pushed on the innermost block's title stack and nothing else changes; outside a block, or for another tag, nothing changes |
| Regions.BlockItemStart | src/incidecoder_scraper/scraper.py:378-388 | an `li` inside a block raises the innermost block's item depth by one, starting an empty current item when the depth was zero, and nothing else changes |
| Regions.BlockStart | src/incidecoder_scraper/scraper.py:272-388 | an opening element pushes a fresh block of depth 1 with its name, the tag as its title or item when it is one, and nothing else. Any other tag deepens the innermost block, pushes a title tag and counts an `li`; the block's name, buffers, items and links are kept. |
| Regions.BlockAddLink | src/incidecoder_scraper/scraper.py:461-464 | a present link is appended to the innermost block's links and nothing else changes; without a link or a block nothing changes |
| Regions.BlockData | src/incidecoder_scraper/scraper.py:614-629 | text goes to the innermost block's title inside a title tag, else to its current item inside an `li`, else to its body; nothing else changes |
| Regions.BlockEnd | src/incidecoder_scraper/scraper.py:488-542 | every end tag first completes an `li` item at item level 1 and pops a matching title; closing the outermost tag of a block then pops the block and reports its entry, and any other end tag keeps the block, one level shallower, with the others unchanged |
| Regions.BlockReport | src/incidecoder_scraper/scraper.py:500-514 | a closing block reports nothing exactly when it has no name, title, body, items or links. Otherwise it reports one entry: the name or else the title, the items, the body text, and the sorted non-empty links, each where present. |
| Regions.CloseItem | src/incidecoder_scraper/scraper.py:490-496 | closing the last open `li` appends the item's normalized text when it is non-empty and clears the item; an inner `li` only lowers the item depth; an end tag matching the top title tag pops it. Depth, name, links and buffers are kept. |
| Regions.CloseLi | src/incidecoder_scraper/scraper.py:490-495 | the `li` half of closing an item: the last open `li` appends its non-empty normalized text and clears the item, an inner one only lowers the depth, any other tag changes nothing |
| Regions.NormalizeClean | src/incidecoder_scraper/scraper.py:799-802 | normalized text is empty or clean (non-empty with no edge spaces) |
| Regions.BlockOpenPreserves | src/incidecoder_scraper/scraper.py:272-306 | opening or deepening keeps every block well formed |
| Regions.BlockTitlePreserves | src/incidecoder_scraper/scraper.py:372-376 | title tags keep every block well formed |
| Regions.BlockItemPreserves | src/incidecoder_scraper/scraper.py:378-388 | `li` tags keep every block well formed |
| Regions.BlockStartPreserves | src/incidecoder_scraper/scraper.py:272-388 | a start tag keeps every block well formed |
| Regions.BlockDataPreserves | src/incidecoder_scraper/scraper.py:614-629 | text and links keep every block well formed |
| Regions.CloseItemOk | src/incidecoder_scraper/scraper.py:490-496 | closing an item keeps the block well formed, and its items clean |
| Regions.CloseLiOk | src/incidecoder_scraper/scraper.py:490-495 | closing an `li` keeps the block well formed |
| Regions.MakeEntryOk | src/incidecoder_scraper/scraper.py:500-514 | an entry built from clean parts is well formed |
| Regions.BlockEntryOk | src/incidecoder_scraper/scraper.py:500-514 | the entry of a well-formed block is well formed |
| Regions.ReportOk | src/incidecoder_scraper/scraper.py:500-514 | the reported entries of a well-formed block are well formed |
| Regions.BlockEndPreserves | src/incidecoder_scraper/scraper.py:488-542 | an end tag keeps the blocks and the collected entries well formed |
| Ingredients.IngredientKey | src/incidecoder_scraper/scraper.py:783-789 | the key is the lower-cased URL when there is one, else the stripped lower-cased name, else empty |
| Ingredients.IngredientKeyIgnoresCase | src/incidecoder_scraper/scraper.py:783-789 | URLs or names that differ only in case give the same key |
| Ingredients.TextOr | src/incidecoder_scraper/scraper.py:820 | `hint or ""` |
| Ingredients.Dict.Put | src/incidecoder_scraper/scraper.py:403 | assigning a key keeps the insertion order of keys already present and appends a new one |
| Ingredients.Dict.SetDefault | src/incidecoder_scraper/scraper.py:703 | `setdefault` leaves a present key alone and otherwise puts the value |
| Ingredients.Dict.Values | src/incidecoder_scraper/scraper.py:736 | `values()` lists each entry once, in key insertion order |
| Ingredients.Sanitize | src/incidecoder_scraper/scraper.py:814-818 | keeps exactly the extras whose values are not `None`, empty text or an empty list, unchanged |
| Ingredients.Register | src/incidecoder_scraper/scraper.py:804-838 | extras that survive sanitizing, under a non-empty target, leave the target present with its old extras plus the sanitized ones, and change no other key; otherwise the dictionary is unchanged. Every entry is the old one, or one created or filled from the hints. |
| Ingredients.RegisterAt | src/incidecoder_scraper/scraper.py:823-838 | a new target gets an ingredient of the hints with the kept extras and is appended to the key order; an existing one is filled from the hints and has the extras merged in; every other entry is unchanged |
| Ingredients.RegisterTarget | src/incidecoder_scraper/scraper.py:820 | the target key is the given key when present, else the ingredient key of the URL and name hints |
| Ingredients.Fill | src/incidecoder_scraper/scraper.py:833-837 | a hint fills a name or URL only where it is empty; the extras are untouched |
| Ingredients.RegisterKeepsExtrasClean | src/incidecoder_scraper/scraper.py:804-838 | registration only ever stores sanitized extras |
| Ingredients.NonNone | src/incidecoder_scraper/scraper.py:761 | keeps exactly the extras whose values are not `None` |
| Ingredients.Merge | src/incidecoder_scraper/scraper.py:753-761 | a merge fills only an empty name or URL. The extras gain the duplicate's non-`None` ones, and on a shared key the duplicate's non-`None` value overwrites, as `update` does. |
| Ingredients.MergeExtra | src/incidecoder_scraper/scraper.py:760-761 | the merged extras are the old ones with the duplicate's non-`None` extras laid over them |
| Ingredients.IndexedDistinct | src/incidecoder_scraper/scraper.py:733-764 | while the two indexes are consistent, the list has no two ingredients with the same URL, ignoring case, and no two URL-less ingredients with the same name |
| Ingredients.PickTarget | src/incidecoder_scraper/scraper.py:739-743 | the target is the entry indexed by URL, else the one indexed by name, else a new slot |
| Ingredients.Place | src/incidecoder_scraper/scraper.py:744-761 | a new ingredient is appended, and a duplicate is merged into its target |
| Ingredients.Note | src/incidecoder_scraper/scraper.py:762-765 | an index keeps its existing keys and gains at most the new key |
| Ingredients.PlaceIndexed | src/incidecoder_scraper/scraper.py:737-765 | one step of the loop keeps the list and its two indexes consistent |
| Ingredients.DedupeConclusion | src/incidecoder_scraper/scraper.py:733-764 | the loop's invariants imply distinct keys, no growth, and that every ingredient is merged into exactly one output entry |
| Ingredients.MergeOne | src/incidecoder_scraper/scraper.py:737-763 | one iteration of the merge loop keeps the loop invariant |
| Ingredients.Dedupe | src/incidecoder_scraper/scraper.py:733-764 | the loop computes `Deduped`. The output has distinct URLs and distinct URL-less names and no more entries than the input. Each input ingredient is merged into one output entry, created by its first occurrence. Each entry's extras are its creator's, with every later joiner's non-`None` extras laid over them in input order (`EntryExtra`). |
| Ingredients.Deduped | src/incidecoder_scraper/scraper.py:733-764 | the merge as a fold of `PickTarget` and `Place` over the ingredients, whose result has distinct URLs and distinct URL-less names |
| Ingredients.MergingStep | src/incidecoder_scraper/scraper.py:737-763 | the merge of one ingredient more is one more `Place` into the entry `PickTarget` names |
| Ingredients.StepExtrasJoined | src/incidecoder_scraper/scraper.py:745-761 | one iteration keeps every entry's extras as `EntryExtra` gives them |
| Tooltips.NewFrame | src/incidecoder_scraper/scraper.py:307-332 | a new ingredient context takes its hints from the element's attributes; its key is present exactly when a hint is, and is then the hints' ingredient key. Its title parts are `data-tooltip-title`, else `data-title`, when one is non-empty, and none otherwise. It keeps `data-tooltip-text` and `data-tooltip-link` as given. |
| Tooltips.IngredientOpen | src/incidecoder_scraper/scraper.py:307-333 | an ingredient element pushes a context; inside one, any other tag deepens it |
| Tooltips.TooltipStart | src/incidecoder_scraper/scraper.py:335-370 | inside an ingredient, a tooltip element starts or deepens the tooltip, and an anchor inside it is counted; outside a tooltip nothing changes |
| Tooltips.TooltipEnter | src/incidecoder_scraper/scraper.py:336-356 | entering a tooltip resets its body and links and appends the first present of `data-title`, `title` and `data-tooltip-title` to its title; a tooltip tag or any tag inside a tooltip deepens it; nothing else changes |
| Tooltips.TooltipTitleAttr | src/incidecoder_scraper/scraper.py:346-350 | the tooltip title attribute is `data-title` when present, else `title`, else `data-tooltip-title` |
| Tooltips.TooltipTitle | src/incidecoder_scraper/scraper.py:358-363 | inside a tooltip, a title tag is pushed on the title stack |
| Tooltips.TooltipAnchor | src/incidecoder_scraper/scraper.py:365-370 | an anchor inside a tooltip records its resolved `href` and raises the anchor depth |
| Tooltips.AnchorHints | src/incidecoder_scraper/scraper.py:448-455 | an ingredient link fills the context's key and hints only where they are empty |
| Tooltips.TooltipData | src/incidecoder_scraper/scraper.py:630-638 | tooltip text outside anchors goes to the title under a title tag, else to the body |
| Tooltips.TooltipTexts | src/incidecoder_scraper/scraper.py:550-561 | the title and text extras are present exactly when there is text, with the body taking precedence over `data-tooltip-text` |
| Tooltips.TooltipLinks | src/incidecoder_scraper/scraper.py:554-566 | the tooltip's links are its non-empty anchors plus the resolved `data-tooltip-link` |
| Tooltips.SortedLinks | src/incidecoder_scraper/scraper.py:554-567 | the sorted links of a tooltip are exactly its non-empty links and its resolved data link |
| Tooltips.TooltipExtra | src/incidecoder_scraper/scraper.py:550-568 | the extras hold every text extra with its value and no other text. They also hold a sorted list of exactly the links when there are any. |
| Tooltips.FrameExtra | src/incidecoder_scraper/scraper.py:582-590 | a closing ingredient registers its `data-tooltip-text` stripped and its `data-tooltip-link` resolved, and nothing else |
| Tooltips.TooltipEnd | src/incidecoder_scraper/scraper.py:545-579 | closing the tooltip's last tag registers its extras and clears its buffers; inner tags only lower its depth |
| Tooltips.TooltipClose | src/incidecoder_scraper/scraper.py:545-579 | closing a tooltip's last tag registers its extras under the context's key and hints; other end tags, and tags outside a tooltip, leave the dictionary alone; the context keeps its key, hints and data attributes |
| Tooltips.IngredientEnd | src/incidecoder_scraper/scraper.py:543-597 | the end of an ingredient element pops its context. The tooltip's extras are registered when its last tag closes, then the element's own data-attribute extras. Inner end tags lower the context's depth and close its tooltip tag. The outer contexts are kept. |
| Tooltips.IngredientOpenPreserves | src/incidecoder_scraper/scraper.py:307-333 | opening keeps every context with a positive depth and a non-empty key |
| Tooltips.IngredientEndPreserves | src/incidecoder_scraper/scraper.py:543-597 | end tags keep the contexts well formed and the dictionary consistent, with sanitized extras |
| Tooltips.RegisterAddsOnlyWithExtras | src/incidecoder_scraper/scraper.py:811-819 | registering nothing worth keeping leaves the dictionary unchanged |
| Extractor.MetaKey | src/incidecoder_scraper/scraper.py:232 | a meta key is lower-case |
| Extractor.MetaAfter | src/incidecoder_scraper/scraper.py:231-235 | a meta tag with a key and content stores the stripped content under the key; otherwise nothing changes |
| Extractor.OpenSpecial | src/incidecoder_scraper/scraper.py:228-238 | the `script`/`meta`/`h1` branch touches only the JSON-LD, meta and `h1` fields |
| Extractor.OpenRegions | src/incidecoder_scraper/scraper.py:240-270 | the region counters touch only the detail, description and materials fields |
| Extractor.TooltipStartTop | src/incidecoder_scraper/scraper.py:334-370 | the tooltip step is `Tooltips.TooltipStart` on the innermost ingredient context; the other contexts are kept |
| Extractor.IngredientStart | src/incidecoder_scraper/scraper.py:307-370 | an ingredient element pushes a new context from its attributes and takes the tooltip step on it; any other tag deepens the innermost context and takes the tooltip step there; the outer contexts are kept |
| Extractor.OpenBlocks | src/incidecoder_scraper/scraper.py:272-388 | the block step touches only the function, highlight and ingredient stacks |
| Extractor.OpenAnchor | src/incidecoder_scraper/scraper.py:390-413 | the anchor branch touches only the link fields, the brand links and the ingredients |
| Extractor.IngredientAnchorEnd | src/incidecoder_scraper/scraper.py:438-455 | closing an ingredient link touches only the ingredients and the innermost context |
| Extractor.AnchorRecord | src/incidecoder_scraper/scraper.py:438-460 | closing a link touches only the ingredients, contexts, brand links and meta |
| Extractor.CloseAnchor | src/incidecoder_scraper/scraper.py:426-469 | the anchor end touches only the link state, ingredients, brand links, meta and block links |
| Extractor.CloseSpecial | src/incidecoder_scraper/scraper.py:416-469 | the `script`/`h1`/`a` end branch leaves the region and block fields alone |
| Extractor.CloseMaterials | src/incidecoder_scraper/scraper.py:470-480 | the materials end touches only the materials fields |
| Extractor.CloseDescription | src/incidecoder_scraper/scraper.py:481-487 | the description end touches only the description fields |
| Extractor.CloseBlocks | src/incidecoder_scraper/scraper.py:488-597 | the block end touches only the stacks, entries and ingredients |
| Extractor.TooltipDataTop | src/incidecoder_scraper/scraper.py:630-638 | text goes into the innermost ingredient context as `Tooltips.TooltipData` routes it; the other contexts are kept |
| Extractor.DataStep | src/incidecoder_scraper/scraper.py:603-638 | `handle_data` touches only the text buffers and the stacks |
| ExtractorLaws.RunConcat | src/incidecoder_scraper/scraper.py:640-643 | feeding two chunks in turn is feeding their concatenation |
| ExtractorLaws.InitialWellformed | src/incidecoder_scraper/scraper.py:189-217 | the state after `_reset_state` is well formed |
| ExtractorLaws.OpenBlocksPreserves | src/incidecoder_scraper/scraper.py:272-388 | the block step keeps the state well formed |
| ExtractorLaws.OpenAnchorPreserves | src/incidecoder_scraper/scraper.py:390-413 | the anchor step keeps the state well formed |
| ExtractorLaws.StartPreserves | src/incidecoder_scraper/scraper.py:219-413 | `handle_starttag` keeps the state well formed |
| ExtractorLaws.IngredientAnchorEndPreserves | src/incidecoder_scraper/scraper.py:438-455 | closing an ingredient link keeps the state well formed |
| ExtractorLaws.AnchorRecordPreserves | src/incidecoder_scraper/scraper.py:438-460 | recording a closed link keeps the state well formed |
| ExtractorLaws.CloseAnchorPreserves | src/incidecoder_scraper/scraper.py:426-469 | the anchor end keeps the state well formed |
| ExtractorLaws.CloseSpecialPreserves | src/incidecoder_scraper/scraper.py:416-469 | the `script`/`h1`/`a` end branch keeps the state well formed |
| ExtractorLaws.CloseMaterialsPreserves | src/incidecoder_scraper/scraper.py:470-480 | the materials end keeps the state well formed |
| ExtractorLaws.CloseDescriptionPreserves | src/incidecoder_scraper/scraper.py:481-487 | the description end keeps the state well formed |
| ExtractorLaws.CloseBlocksPreserves | src/incidecoder_scraper/scraper.py:488-597 | the block end keeps the state well formed |
| ExtractorLaws.EndPreserves | src/incidecoder_scraper/scraper.py:415-601 | `handle_endtag` keeps the state well formed |
| ExtractorLaws.DataPreserves | src/incidecoder_scraper/scraper.py:603-638 | `handle_data` keeps the state well formed |
| ExtractorLaws.StepPreserves | src/incidecoder_scraper/scraper.py:219-638 | every event keeps the state well formed |
| ExtractorLaws.RunPreserves | src/incidecoder_scraper/scraper.py:640-643 | any document keeps the state well formed: entries and materials clean, contexts keyed, dictionary consistent |
| Products.MetaGet | src/incidecoder_scraper/scraper.py:711 | a meta lookup finds a value exactly when the key was collected |
| Products.BlockProduct | src/incidecoder_scraper/scraper.py:647-657 | a block's product node is a product node among the nodes of the decoded block |
| Products.ProductNode | src/incidecoder_scraper/scraper.py:647-657 | the node found across blocks is a product node |
| Products.ProductNodeNone | src/incidecoder_scraper/scraper.py:647-657 | no node is found exactly when no block, or a block that does not decode, yields one |
| Products.ProductNodeFirst | src/incidecoder_scraper/scraper.py:647-657 | the node found comes from the first block that yields one |
| Products.TextOf | src/incidecoder_scraper/scraper.py:659 | a JSON member counts as text exactly when it is a non-empty string |
| Products.JsonBrand | src/incidecoder_scraper/scraper.py:661-665 | a string brand is taken as it is; a brand comes only from a string or an object |
| Products.Convert | src/incidecoder_scraper/scraper.py:669-677 | a missing or `null` rating member gives `None`; any other value is converted |
| Products.Rating | src/incidecoder_scraper/scraper.py:668-677 | without an `aggregateRating` object there is no rating; with one, the value and count are its `ratingValue` and `ratingCount` put through `float()` and `int()`, and `None` where missing or `null` |
| Products.Categories | src/incidecoder_scraper/scraper.py:678-682 | a list of categories gives `str()` of each item, in order; a string gives itself; anything else gives none |
| Products.Show | src/incidecoder_scraper/scraper.py:680 | `str()` of a JSON value: a string is itself, and anything else is the library's rendering |
| Products.AddJsonItem | src/incidecoder_scraper/scraper.py:685-703 | an item without a key changes nothing. Otherwise its key is added to the keys and every other entry is unchanged. A new key holds the item's name and resolved URL, or a string item's text with no URL; an existing key keeps its entry, an object item filling only an empty URL. |
| Products.ItemName | src/incidecoder_scraper/scraper.py:687-689 | an ingredient object's name is the first truthy one of `name`, `@id` and `identifier`, when that is a string. It is none when that value is not a string or none of the three is truthy. |
| Products.ItemUrl | src/incidecoder_scraper/scraper.py:690-694 | an ingredient object's URL is its `@id`, else its `url`, resolved under the base when it is a string, and empty otherwise |
| Products.ItemKey | src/incidecoder_scraper/scraper.py:686-700 | an object with a name is keyed by its URL and name, a string item by its text; other items have no key |
| Products.SetDefaultKeeps | src/incidecoder_scraper/scraper.py:703 | `setdefault` keeps every existing entry unchanged |
| Products.AddNamed | src/incidecoder_scraper/scraper.py:686-698 | the named item's key is present afterwards and is the only key added; a new entry holds the name and URL, an existing one only has an empty URL filled; every other entry is unchanged |
| Products.AddJsonItems | src/incidecoder_scraper/scraper.py:684-703 | a list of items keeps every key, name and extra that was already there |
| Products.ItemKeysAt | src/incidecoder_scraper/scraper.py:684-703 | the keys of a list of items are each item's key, position by position |
| Products.AddJsonItemsKeys | src/incidecoder_scraper/scraper.py:684-703 | after the item loop every item's key is present, and every key added is the key of some item |
| Products.AddJsonTokens | src/incidecoder_scraper/scraper.py:704-708 | a comma-separated string adds entries and never changes an existing one |
| Products.AddJsonTokensKeys | src/incidecoder_scraper/scraper.py:704-708 | after the token loop the key of every token that is not blank once stripped is present |
| Products.AddJsonTokensOrigin | src/incidecoder_scraper/scraper.py:704-708 | every key the token loop adds comes from a token that is not blank once stripped, and holds that stripped text with no URL |
| Products.JsonIngredients | src/incidecoder_scraper/scraper.py:683-708 | without a product node nothing changes. A list of ingredients runs the item loop, a string runs the token loop over its comma-separated pieces, and anything else changes nothing. Existing keys, names and extras are kept. |
| Products.ChooseName | src/incidecoder_scraper/scraper.py:710-711 | the JSON-LD name wins, then the `h1`, then `og:title`, then `twitter:title` |
| Products.ChooseBrand | src/incidecoder_scraper/scraper.py:712-719 | the JSON-LD brand wins, then the brand link text, then the title-cased slug of the first brand link |
| Products.ChooseDescription | src/incidecoder_scraper/scraper.py:720-727 | the detail-page description wins, then the JSON-LD one, then `og:description`, then `description` |
| Products.ChooseImage | src/incidecoder_scraper/scraper.py:731-732 | the first JSON-LD image wins, then `og:image`, then `twitter:image` |
| Products.Assemble | src/incidecoder_scraper/scraper.py:644-732 | the product is keyed by its URL, carries the node and the collected materials, functions and highlights, and takes name, brand, description, rating, categories and image each by the precedence above; with no JSON-LD brand, no `brand:text` and no brand link, the brand is the node's brand value as is, or none without a node |
| Products.FindProductNode | src/incidecoder_scraper/scraper.py:647-657 | the loop over JSON-LD blocks with its early exit finds the node `ProductNode` describes |
| Products.AddJsonItemsLoop | src/incidecoder_scraper/scraper.py:684-703 | the item loop computes `AddJsonItems` |
| Products.AddJsonTokensLoop | src/incidecoder_scraper/scraper.py:704-708 | the token loop computes `AddJsonTokens` |
| Parser.ProductHtmlParser.constructor | src/incidecoder_scraper/scraper.py:184-187 | a new parser keeps the base URL without trailing slashes and starts from the reset state |
| Parser.ProductHtmlParser.ResetState | src/incidecoder_scraper/scraper.py:189-217 | `_reset_state` puts every field back to its initial value |
| Parser.ProductHtmlParser.HandleStartTag | src/incidecoder_scraper/scraper.py:219-413 | the fields become the start step of their old values |
| Parser.ProductHtmlParser.HandleEndTag | src/incidecoder_scraper/scraper.py:415-601 | the fields become the end step of their old values |
| Parser.ProductHtmlParser.HandleData | src/incidecoder_scraper/scraper.py:603-638 | the fields become the data step of their old values |
| Parser.ProductHtmlParser.Feed | src/incidecoder_scraper/scraper.py:642 | feeding a document runs every event in order |
| Parser.ProductHtmlParser.Parse | src/incidecoder_scraper/scraper.py:640-765 | `parse` resets, feeds and assembles. The brand links are sorted and hold exactly those collected. The ingredients have distinct URLs and distinct URL-less names, each entry merged from the dictionary's entries. The product is the one `Parsed` fixes for the events. |
| Parser.ParsedUnique | src/incidecoder_scraper/scraper.py:640-765 | a document parses to one product only: `Parsed` fixes every field |
| Parser.ProductHtmlParser.Finish | src/incidecoder_scraper/scraper.py:644-765 | the part of `parse` after the feed, stated against the state the feed left, with the ingredients `Deduped` of the dictionary |
| Parser.Reconcile | src/incidecoder_scraper/scraper.py:644-765 | the reconciliation of a final state, with the same guarantees as `Parse`; its ingredients are `Deduped` of the dictionary |
| Traversal.Unseen | src/incidecoder_scraper/scraper.py:951-953 | keeps exactly the links not yet seen |
| Traversal.CrawlFresh | src/incidecoder_scraper/scraper.py:931-953 | the walk never visits a page twice, nor a page seen before it started |
| Traversal.CrawlCovers | src/incidecoder_scraper/scraper.py:931-953 | every queued page is visited unless already seen |
| Traversal.CrawlClosed | src/incidecoder_scraper/scraper.py:931-953 | every pagination link of a visited page is visited or was seen before |
| Traversal.CrawlReached | src/incidecoder_scraper/scraper.py:931-953 | every visited page was queued or linked from an earlier visited page |
| Traversal.CrawlLaw | src/incidecoder_scraper/scraper.py:931-953 | from one brand page, the walk starts there, has no repeats, is closed under pagination links, and reaches each page from an earlier one |
| Traversal.IndexWalk | src/incidecoder_scraper/scraper.py:904-929 | the brand index walk yields only known brands not yet visited |
| Traversal.BucketStops | src/incidecoder_scraper/scraper.py:914-924 | a page that fails or brings no new brand ends its letter bucket |
| Traversal.BucketContinues | src/incidecoder_scraper/scraper.py:925-929 | a page with new brands walks them, then the next page, and the set of unvisited brands shrinks |
| Traversal.Emit | src/incidecoder_scraper/scraper.py:858-866 | the merged streams are emitted once each, in first-seen order |
| Traversal.EmitStream | src/incidecoder_scraper/scraper.py:861-864 | one strategy's stream appends exactly its URLs not emitted before, in order, and the emitted set stays the set of URLs yielded |
| Traversal.MergeOrder | src/incidecoder_scraper/scraper.py:852-868 | merging two streams has no repeats, holds what either holds, and puts the first stream's URLs before the second's new ones |
| Discovery.Fetch | src/incidecoder_scraper/scraper.py:83-127 | `fetch` delivers a body exactly when the site answers for the built URL |
| Discovery.CandidatesShape | src/incidecoder_scraper/scraper.py:137-151 | every collected link has no fragment and starts with one of the prefixes |
| Discovery.LinksLaw | src/incidecoder_scraper/scraper.py:137-151 | `links` has no repeats, holds exactly the sanitized matching hrefs, and keeps the order of first appearance |
| Discovery.LinkCollector.constructor | src/incidecoder_scraper/scraper.py:132-135 | a new collector has its prefixes and no links |
| Discovery.LinkCollector.HandleStartTag | src/incidecoder_scraper/scraper.py:137-151 | a start tag offers at most its sanitized `href` |
| Discovery.LinkCollector.Feed | src/incidecoder_scraper/scraper.py:137-151 | feeding offers every tag's candidate in order |
| Discovery.CollectLinks | src/incidecoder_scraper/scraper.py:129-151 | a fresh collector fed a page ends with `Links` |
| Discovery.SinglePrefixLinks | src/incidecoder_scraper/scraper.py:944-948 | a collector with a single prefix keeps only links that start with it |
| Discovery.Built | src/incidecoder_scraper/scraper.py:922 | building a list of links builds each link, in order |
| Discovery.BuiltAbsolute | src/incidecoder_scraper/scraper.py:922 | under an absolute base, site references build to absolute URLs |
| Discovery.BuiltUnderBase | src/incidecoder_scraper/scraper.py:944-947 | links matching site prefixes build to the base followed by the link, and are absolute |
| Discovery.Joined | src/incidecoder_scraper/scraper.py:950-951 | joining links to a page joins each link with the site's `urljoin`, in order |
| Discovery.JoinedAbsolute | src/incidecoder_scraper/scraper.py:948-951 | `?page=` links joined to an absolute page are absolute |
| Discovery.PageProductsLaw | src/incidecoder_scraper/scraper.py:944-947 | the product URLs of a fetched page are the base followed by each of its `/products/` links, without repeats |
| Discovery.HarvestMembers | src/incidecoder_scraper/scraper.py:944-947 | the harvest of the visited pages holds every product URL of each visited page, and nothing else |
| Discovery.HarvestConcat | src/incidecoder_scraper/scraper.py:934-947 | harvesting two runs of pages is harvesting each in turn, so the output follows the visiting order |
| Discovery.BrandPagesLaw | src/incidecoder_scraper/scraper.py:931-953 | the pages of a brand: the brand page first, no repeats, closed under pagination, each reached from an earlier one |
| Discovery.Enqueue | src/incidecoder_scraper/scraper.py:948-953 | the queue gains the page's unseen pagination links, in order |
| Discovery.VisitPage | src/incidecoder_scraper/scraper.py:939-953 | one visit yields the page's product links and queues its unseen pages |
| Discovery.BrandStep | src/incidecoder_scraper/scraper.py:934-953 | one turn of the loop keeps the output equal to the walk so far and shrinks the work left |
| Discovery.DiscoverProductsForBrand | src/incidecoder_scraper/scraper.py:931-953 | `_discover_products_for_brand` yields the products of the brand's pages in visiting order |
| Discovery.WalkBrandPages | src/incidecoder_scraper/scraper.py:932-953 | the loop of `_discover_products_for_brand` visits the pages of the breadth-first walk from the brand page and yields their harvest |
| Discovery.IndexBrands | src/incidecoder_scraper/scraper.py:920-922 | the brand URLs of an index page are its `/brands/` and `/brand/` links, each built, in order |
| Discovery.IndexBrandsLaw | src/incidecoder_scraper/scraper.py:920-922 | under an absolute base, an index page's brand URLs are absolute and lie under the base's `/brands/` or `/brand/` |
| Discovery.BrandLinksMatch | src/incidecoder_scraper/scraper.py:920-921 | the links the brand collector keeps start with `/brands/` or `/brand/` |
| Discovery.BrandLinksBuilt | src/incidecoder_scraper/scraper.py:922 | such links build to absolute URLs under the base's `/brands/` or `/brand/` |
| Discovery.AllBrandsUnderBase | src/incidecoder_scraper/scraper.py:904-929 | every brand the index walk knows of is an absolute URL under the base's `/brands/` or `/brand/` |
| Discovery.ListingBounded | src/incidecoder_scraper/scraper.py:904-929 | every listed brand lies within the known brands |
| Discovery.BrandsWalked | src/incidecoder_scraper/scraper.py:904-929 | the walked brands are among the known brands, and under an absolute base they are absolute URLs under the base's `/brands/` or `/brand/` |
| Discovery.WalkBatch | src/incidecoder_scraper/scraper.py:925-927 | each new brand link is visited and its products yielded |
| Discovery.IndexPage | src/incidecoder_scraper/scraper.py:909-929 | one index page either ends the bucket or walks its new brands and moves to the next page |
| Discovery.WalkBucket | src/incidecoder_scraper/scraper.py:908-929 | one letter bucket is walked page by page until a page brings nothing new |
| Discovery.WalkBuckets | src/incidecoder_scraper/scraper.py:907-929 | the buckets are walked in turn, the visited brands shared between them |
| Discovery.DiscoverFromBrands | src/incidecoder_scraper/scraper.py:904-929 | `_discover_from_brands` yields the products of every brand the index walk reaches |
| Discovery.ProductLocs | src/incidecoder_scraper/scraper.py:898-902 | keeps exactly the non-empty locations that contain `/products/` |
| Discovery.SitemapLocs | src/incidecoder_scraper/scraper.py:870-897 | a sitemap that cannot be fetched has no locations |
| Discovery.SitemapProducts | src/incidecoder_scraper/scraper.py:884-902 | a sitemap whose name lacks `product` (ignoring case), or that cannot be fetched or parsed, yields nothing; otherwise it yields exactly its non-empty locations that contain `/products/` |
| Discovery.FromSitemaps | src/incidecoder_scraper/scraper.py:884-902 | the listed sitemaps yield exactly the URLs that some sitemap among them yields |
| Discovery.SitemapUrls | src/incidecoder_scraper/scraper.py:870-902 | without a readable index nothing is yielded; otherwise exactly the URLs that the sitemaps it lists yield, every one containing `/products/` |
| Discovery.DiscoverProductUrls | src/incidecoder_scraper/scraper.py:852-868 | computes what `discover_product_urls` yields for the strategy |
| Discovery.DiscoveredLaw | src/incidecoder_scraper/scraper.py:852-868 | the discovered URLs have no repeats, are exactly those the strategies yield, and are in first-seen order |
| Discovery.AutoSitemapFirst | src/incidecoder_scraper/scraper.py:853-866 | under `auto`, every sitemap URL comes before every URL that only the brand walk finds |
| Storage.FindBrand | src/incidecoder_scraper/storage.py:152-154 | the lookup by URL finds a row with that URL, and finds none exactly when no row has it |
| Storage.FindBrandUnique | src/incidecoder_scraper/storage.py:47 | with unique URLs, the lookup finds a row's own position |
| Storage.AddBrandFacts | src/incidecoder_scraper/storage.py:151-167 | one pair keeps URLs unique and adds exactly its URL. A row with another URL is unchanged; the row with its URL takes the pair's name only when that is non-empty; a new URL is appended as an unprocessed row. |
| Storage.BrandsAfterLaw | src/incidecoder_scraper/storage.py:141-196 | `add_brands` keeps URLs unique, never loses or reorders a row, and leaves the URL set the old one plus the batch's |
| Storage.BrandUrlCount | src/incidecoder_scraper/storage.py:47 | with unique URLs, there are as many URLs as rows |
| Storage.BrandsAfterCount | src/incidecoder_scraper/storage.py:141-196 | the number of inserts is the number of batch URLs not already stored |
| Storage.BrandsAfterNamed | src/incidecoder_scraper/storage.py:156-161 | a brand ends up with the last non-empty name given for its URL |
| Storage.PendingLaw | src/incidecoder_scraper/storage.py:198-204 | the pending brands are exactly the unprocessed rows, in id order |
| Storage.ResetAll | src/incidecoder_scraper/storage.py:206-215 | every brand becomes unprocessed and nothing else changes |
| Storage.ResetMakesAllPending | src/incidecoder_scraper/storage.py:206-215 | after a reset every brand is pending |
| Storage.MarkLeavesPending | src/incidecoder_scraper/storage.py:217-230 | marking a brand processed removes it, and only it, from the pending brands |
| Storage.BrandName | src/incidecoder_scraper/storage.py:569-573 | a brand name is found exactly for an existing id, and is that row's name |
| Storage.FindProduct | src/incidecoder_scraper/storage.py:131-136 | the lookup by URL finds a row with that URL, and finds none exactly when no row has it |
| Storage.FindProductUnique | src/incidecoder_scraper/storage.py:57 | with unique URLs, the lookup finds a row's own position |
| Storage.QueueProductFacts | src/incidecoder_scraper/storage.py:249-276 | one queued URL keeps URLs unique and neither loses, reorders nor unscrapes a row |
| Storage.ProductsAfterLaw | src/incidecoder_scraper/storage.py:235-315 | `add_products_for_brand` keeps URLs unique and only fills names, tags brands or appends unscraped rows |
| Storage.QueueProductHolds | src/incidecoder_scraper/storage.py:249-276 | a queued URL is stored afterwards, under the brand when the id is non-zero |
| Storage.ProductsAfterHolds | src/incidecoder_scraper/storage.py:235-315 | every URL of the batch is stored afterwards, under the brand when the id is non-zero |
| Storage.ToScrapeSound | src/incidecoder_scraper/storage.py:317-329 | each queued entry is a row's id, URL, name and brand name, unscraped under `resume` |
| Storage.ToScrapeComplete | src/incidecoder_scraper/storage.py:317-329 | every row is queued unless `resume` skips it as scraped |
| Storage.ToScrapeOrdered | src/incidecoder_scraper/storage.py:322-324 | the queue is in increasing id order |
| Storage.ResumeSkipsScraped | src/incidecoder_scraper/storage.py:321-322 | under `resume` a scraped URL is never queued |
| Storage.MarkScrapedLaw | src/incidecoder_scraper/storage.py:331-344 | a product marked scraped is reported by `has_product`, and no scraped product stops being one |
| Storage.DedupedKeysDistinct | src/incidecoder_scraper/storage.py:80 | ingredients with distinct URLs and distinct URL-less names, each with a URL or a name, never break the primary key |
| Storage.LinkRows | src/incidecoder_scraper/storage.py:420-432 | one ingredient row per ingredient, in order, each holding the product id, URL, name and serialized extras |
| Storage.UnlinkedSound | src/incidecoder_scraper/storage.py:417-419 | the delete keeps only other products' rows |
| Storage.UnlinkedUnique | src/incidecoder_scraper/storage.py:417-419 | the delete keeps the primary key |
| Storage.RelinkUnique | src/incidecoder_scraper/storage.py:417-432 | relinking a product's ingredients keeps the primary key when their keys are distinct |
| Storage.LoadedAppend | src/incidecoder_scraper/storage.py:556-565 | loading from two row runs is loading from each in turn |
| Storage.LoadedUnlinked | src/incidecoder_scraper/storage.py:556-565 | after the delete a product loads nothing, and other products load what they did |
| Storage.LoadedLinkRows | src/incidecoder_scraper/storage.py:556-565 | the new rows load back as exactly the saved ingredients |
| Storage.SaveRoundTrip | src/incidecoder_scraper/storage.py:346-565 | after `save_product`, the row holding the product's URL is scraped and reads back as the product, with the name and brand coalesced and the unstored fields empty; other products keep their ingredients |
| Storage.SavedProductsLaw | src/incidecoder_scraper/storage.py:360-412 | `save_product` keeps URLs unique, never shrinks the table, and changes no other row |
| Storage.CatalogLaw | src/incidecoder_scraper/storage.py:516-554 | `iter_products` yields a product for exactly the scraped rows |
| Storage.SavedScraped | src/incidecoder_scraper/storage.py:131-136 | after a save, `has_product` holds for the saved URL and for exactly the URLs it held for before |
| Storage.SavedIsListed | src/incidecoder_scraper/storage.py:346-554 | a saved product is among those `iter_products` yields |
| Storage.DataStore.constructor | src/incidecoder_scraper/storage.py:25-129 | a new store has empty tables that satisfy the constraints |
| Storage.DataStore.AddBrands | src/incidecoder_scraper/storage.py:141-196 | the brands become `BrandsAfter` of the batch, the count is the rows inserted, and the other tables are untouched |
| Storage.DataStore.IterPendingBrands | src/incidecoder_scraper/storage.py:198-204 | yields the pending brands |
| Storage.DataStore.ResetBrandProcessing | src/incidecoder_scraper/storage.py:206-215 | every brand becomes unprocessed, and the other tables are untouched |
| Storage.DataStore.MarkBrandProcessed | src/incidecoder_scraper/storage.py:217-230 | the brand becomes processed, and the other tables are untouched |
| Storage.DataStore.AddProductsForBrand | src/incidecoder_scraper/storage.py:235-315 | the products become `ProductsAfter` under the brand's name, the count is the rows inserted, and the other tables are untouched |
| Storage.DataStore.IterProductsToScrape | src/incidecoder_scraper/storage.py:317-329 | yields the scrape queue |
| Storage.DataStore.MarkProductScraped | src/incidecoder_scraper/storage.py:331-344 | the product becomes scraped, and the other tables are untouched |
| Storage.DataStore.SaveProduct | src/incidecoder_scraper/storage.py:346-435 | succeeds exactly when the ingredient keys are distinct. On success the product row is written and the product's ingredient rows are replaced. On failure the transaction rolls back and the tables are unchanged. |
| Storage.DataStore.InsertLinks | src/incidecoder_scraper/storage.py:420-432 | the batch insert succeeds exactly when no two rows share a key, and then appends the rows in order |
| Storage.DataStore.LoadIngredients | src/incidecoder_scraper/storage.py:556-565 | `_load_ingredients` reads back the product's rows |
| Storage.DataStore.IterProducts | src/incidecoder_scraper/storage.py:516-554 | yields the catalog of scraped products |
| Coordinator.FetchProduct | src/incidecoder_scraper/scraper.py:955-958 | a product is returned exactly when the page can be fetched. It is the product `Parsed` fixes for the tokenized page under the base without trailing slashes. It carries the page's URL, and its ingredients have distinct URLs and distinct URL-less names. |
| Coordinator.ScrapeOne | src/incidecoder_scraper/scraper.py:971-982 | one URL is stored exactly when it is not skipped under `resume`, its page can be fetched and the save succeeds. It is then saved as the product its page parses to: the products table gains or replaces that row, and the ingredient links of its id are replaced by links to the product's ingredients. Otherwise the tables are unchanged. The scraped set grows by that URL only. |
| Coordinator.Scrape | src/incidecoder_scraper/scraper.py:960-983 | `scrape` runs discovery and fetching from the site root with its trailing slashes stripped, as the scraper's constructor does. It saves at most `limit` products. Its internal `count` of stored products, which the model returns, is the number saved. Each saved URL is saved once. It is discovered, fetchable, stored afterwards and, under `resume`, not stored before. No product is unstored, and every newly stored URL is one of those saved. If the run neither fails nor reaches the limit, every discovered page that can be fetched ends up stored. |
| Coordinator.ScrapeUrls | src/incidecoder_scraper/scraper.py:968-983 | the loop of `scrape` saves at most `limit` URLs and counts exactly those saved. Each saved URL is listed, fetchable, stored and, under `resume`, not stored before. Saved URLs do not repeat under `resume` or when the list has no repeats. The loop loses no stored product and newly stores only saved URLs. Unless it fails or reaches the limit, it stores every listed URL whose page can be fetched. |
| Coordinator.ScrapeAt | src/incidecoder_scraper/scraper.py:969-982 | one turn of the loop carries the account of saved and stored URLs one URL further, and a failed save changes nothing |

## Left out

- Generator laziness: the discovery strategies are modelled as the whole
  stream they yield. The interleaving of discovery with fetching and saving
  in `scrape` is not modelled.
- The network, the HTML tokenizer, the sitemap XML parser and the
  pagination `urljoin` are oracles in the `Web` value.
  - In discovery, `fetch` with its retries is the map `Web.pages`. The retry
    loop itself is modelled separately, in `Http`.
- Discovery.JoinsAbsolute: assumed of the pagination `urljoin` oracle.
  Joining a `?page=` query to an http(s) page URL gives an http(s) URL, as
  Python's `urljoin` does. With an absolute base URL, this keeps every page
  a walk queues absolute.
- Http.UrlJoin: only the directory bases the scraper uses are modelled. It
  does not remove `.` and `..` segments or collapse empty ones, does not
  apply `urlunparse`'s normalisation, and does not strip control
  characters. So `../ingredients/x` and `/ingredients/x` give two keys in
  the model, where the scraper gives one.
- Http.Resolve: has the gaps of `Http.UrlJoin`.
- Products.TextOf: only a non-empty string counts as text. The scraper also
  takes a truthy JSON-LD value that is not a string, such as a number, a
  list or an `ImageObject` dict. The model drops such a value and falls
  back to the next source.
- Products.JsonBrand: a brand object's `name` or `brand` is taken only when
  it is a non-empty string, with the same gap as `Products.TextOf`.
- Products.Assemble: name, description and image have the gap of
  `Products.TextOf`. The scraper's `image_url` can be a dict; the model's
  is always text.
- Products.AddJsonItem: an ingredient object whose name is truthy but not a
  string is passed over. In the scraper, such an item without a URL makes
  `_ingredient_key` raise on `name.strip()`. With a URL and a new key, the
  item enters the ingredient map, and the merge step then raises on
  `name.lower()` for a number, list or dict name. In both cases
  `fetch_product` fails and `scrape` skips the product. With a URL whose key
  is already present, the name is dropped and only an empty URL of the
  existing entry is filled. None of these paths is modelled.
- Text.Strip: its own contract gives the shape of the result.
  `Text.StripSpan` states that it is the input with its whitespace edges
  removed.
- Text.Split: its own contract gives the shape of the pieces. The round
  trip is `Text.SplitJoin`.
- Text.Words: its own contract gives the shape of the words. Their content
  is `Text.WordsContent`.
- Text.StrippedNonBlank: its own contract gives the shape of the pieces.
  Which chunks are kept is `Text.StrippedNonBlankKeeps`.
- Text.NormalizeTextShape: states emptiness and normal form. The words of
  the result are `Text.NormalizeTextWords`.
- Throttling, jitter, sleeping and timeouts are left out. The waits are
  returned as values instead.
- Logging is left out.
- Character decoding of response bodies is left out.
- Text is ASCII.
  - `lower`, `strip`, `split` and `title` follow Python on ASCII input.
  - Unicode case mapping and Unicode whitespace are not modelled.
- Library conversions are parameters of `Products.Library`:
  - `json.loads`;
  - `float()` and `int()` of rating members;
  - `str()` of non-string categories.
- Floating-point ratings are `real`.
- `discovered_at` is assumed to increase with the row id, so the
  `ORDER BY discovered_at, id` of the scrape queue is id order. Rows
  inserted in the same second tie on the timestamp and fall back to id.
- `iter_products` and `_load_ingredients` have no `ORDER BY`. They are
  modelled in insertion order.
- Ids are row positions. Timestamps are set-or-null flags.
- `DataStore.__init__` is modelled as a store with empty tables. Opening an
  existing database file, `close` and the choice of backend are left out.
- The SQLite branch of `save_product` has no explicit rollback: after a
  primary-key error it leaves an uncommitted partial write on the
  connection. The model follows the DuckDB branch, which rolls back. The
  SQLite branches of the other statements match their DuckDB branches.
- Coordinator.Scrape: the scraper's `scrape` returns nothing. Its `count`
  only decides when the limit is reached. The model returns that count on
  success so that its contract can state it.
- Coordinator.Scrape: a save that fails (two ingredients sharing both URL
  and name) ends the run with an error. The model does not prove that the
  parser never produces such a pair. Storage.DedupedKeysDistinct shows that
  it cannot when every ingredient has a URL or a name.
- A brand URL listed twice on one index page is walked twice, as in the
  source. The index walk is proved only to visit brands not visited on
  earlier pages.
- Markup.IsJsonLdScript: a `<script>` with a valueless `type` attribute
  makes the handler as written raise, in the same way as the valueless
  `class` under Findings. The model treats it as not JSON-LD.
- Product fields that are not stored come back empty from `iter_products`:
  materials, functions, highlights and raw brand links. This is stated in
  `Storage.Reloaded`.
- The `__main__` command line and the export helpers are not part of this
  model.

## Findings

| source | as written | input that shows it | evidently intended | confidence | as-written member | corrected member |
|---|---|---|---|---|---|---|
| src/incidecoder_scraper/scraper.py:652 | the `@type` of each JSON-LD node is looked up in a set of type names; a list-valued `@type` is unhashable, and the `TypeError` escapes `parse` (only `JSONDecodeError` is caught) | a JSON-LD array whose first node has `"@type": ["Product"]` and whose second node has `"@type": "Product"` | pass over a node whose `@type` is not a string and go on searching; the model does so | not executed | Json.FirstProductAsWritten, Json.ListTypeAbortsSearch | Json.FirstProduct, Json.FirstProductAgrees |
| src/incidecoder_scraper/scraper.py:221-222 | the `class` attribute is read with a default of `""`, but a valueless attribute is present with value `None`, so splitting it raises `AttributeError` and the whole page fails | `<span class>` anywhere in the page | treat a valueless `class` as no class; the model does so | not executed | Markup.TokensAsWritten, Markup.ValuelessClassAborts | Markup.ClassTokens |
