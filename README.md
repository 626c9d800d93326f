# Marketonic dashboard: a Dafny model of its client-side logic

Marketonic is a single-page stock dashboard for a supermarket. It loads products
and categories from a REST server, derives a stock status for every product,
filters the product list by a search term and a category, shows four statistics,
and creates, edits and deletes products and categories through two dialogs.
This project models that logic and proves what it guarantees:

- `Catalog`: categories, products, and the stock status a quantity gives a product.
  The low-stock limit is 10.
- `DashboardView`: the pure part of the dashboard page. It covers the status
  mapping of a load and the category list with the "Todas as categorias" option
  in front. It also covers the filtered list, the statistics, and the decisions
  the mutation handlers take.
- `DashboardSession`: the dashboard page as a class. Its fields are the page's
  state. A load or refetch replaces them in one step. Each handler is split in
  two: the request it sends, and what happens once that request settles.
- `ProductForm`: the product dialog. A six-field text draft is seeded from the
  product being edited, or left blank. It is edited one field at a time, checked
  for required fields, and packaged into a payload.
- `CategoryForm`: the category dialog. It has one field, cleared when the dialog
  closes, and is submitted trimmed only when something is left after trimming.
- `Strings`, `Numbers`: the JavaScript built-ins this logic depends on. These are
  `trim`, `toLowerCase`, `includes`, `split('T')[0]`, `toString`, `parseInt` and
  `parseFloat`.

Prices are whole cents. A number typed into the product form that does not parse
becomes `None`, which stands for `NaN`. The server, the confirmation prompt and
the outcome of each request are parameters.

Notes on what the code does, which the model follows:

- A negative quantity is classified as low stock. Only 0 is out of stock.
- The filter option for every category is named "Todas as categorias", and the
  filter compares the selected name with it.
- The category field is cleared when the dialog closes, not when it opens.
- The product form's required fields only need to be non-empty text.
- A refetch that fails keeps the products and categories it had.

## Model

| member | source | states |
|---|---|---|
| Catalog.Classify | src/pages/Dashboard.tsx:54-57 | quantity 0 is out of stock; any other quantity below 10 is low stock; 10 or more is in stock; each case holds exactly when its condition does |
| DashboardView.WithStatus | src/pages/Dashboard.tsx:52-58 | the product gets the status of its quantity, and apart from the status it is the same product |
| DashboardView.AddStatus | src/pages/Dashboard.tsx:52-58 | the loaded list keeps its length and order, and each product gets the status of its quantity |
| DashboardView.AddStatusSpec | src/pages/Dashboard.tsx:52-53 | after the mapping every status is current, and apart from the status every product is unchanged |
| DashboardView.WithSentinel | src/pages/Dashboard.tsx:61 | the category list is one entry longer than the fetched one: the sentinel {0, "Todas as categorias"} first, then exactly the fetched categories in order |
| DashboardView.Matches | src/pages/Dashboard.tsx:76-79 | an empty term with "Todas as categorias" selected matches every product; a selected category other than the sentinel rejects every product of another category |
| DashboardView.FilterProducts | src/pages/Dashboard.tsx:74-81 | no longer than the input, and every product it keeps matches the search term and the category |
| DashboardView.FilterIsSubsequence | src/pages/Dashboard.tsx:74-75 | the filtered list is an order-preserving subsequence of the products |
| DashboardView.FilterCounts | src/pages/Dashboard.tsx:75-80 | a matching product appears as often as in the input; a non-matching one never appears |
| DashboardView.FilterMembership | src/pages/Dashboard.tsx:76-79 | a product is listed exactly when it is loaded, its lower-cased name contains the lower-cased term, and the category is the sentinel name or its own |
| DashboardView.FilterIdentity | src/pages/Dashboard.tsx:76-78 | an empty term with "Todas as categorias" selected lists every product, in order |
| DashboardView.FilterAppend | src/pages/Dashboard.tsx:75-80 | filtering a concatenation is concatenating the filtered parts |
| DashboardView.FilterIdempotent | src/pages/Dashboard.tsx:75-80 | filtering the filtered list again changes nothing |
| DashboardView.FilterIgnoresTermCase | src/pages/Dashboard.tsx:76 | a search term and its lower-cased form list the same products |
| DashboardView.CountStatus | src/pages/Dashboard.tsx:86-87 | a status count never exceeds the number of products |
| DashboardView.InventoryValue | src/pages/Dashboard.tsx:88 | with no negative price or quantity the inventory value is not negative |
| DashboardView.ComputeStats | src/pages/Dashboard.tsx:83-90 | totalProdutos is the number of products, and estoqueBaixo + semEstoque never exceeds it |
| DashboardView.StatusCountsBounded | src/pages/Dashboard.tsx:86-87 | the low-stock and out-of-stock counts together never exceed the number of products, whatever the statuses |
| DashboardView.StatusCountsPartition | src/pages/Dashboard.tsx:83-90 | once statuses are current, the three status counts add up to the number of products |
| DashboardView.CountStatusAppend | src/pages/Dashboard.tsx:86-87 | status counts add up over concatenation |
| DashboardView.InventoryValueAppend | src/pages/Dashboard.tsx:88 | the price-times-quantity sum adds up over concatenation |
| DashboardView.InventoryValueAddStatus | src/pages/Dashboard.tsx:88 | deriving statuses does not change the inventory value |
| DashboardView.StatsExample | src/pages/Dashboard.tsx:83-90 | quantities 0, 5 and 20 give 3 products, 1 low on stock, 1 out of stock |
| DashboardView.DeleteRequest | src/pages/Dashboard.tsx:103-104 | a delete request exists exactly when the user confirmed, and it deletes that product id |
| DashboardView.DeleteFailedMessage | src/pages/Dashboard.tsx:111 | the delete error notification contains the error's text |
| DashboardView.SaveProductRequest | src/pages/Dashboard.tsx:117-119 | update with the edited product's id when editing, create otherwise, with the same payload |
| DashboardView.SaveErrorMessage | src/pages/Dashboard.tsx:129-133 | the server's non-empty message when it sent one, otherwise the fallback |
| DashboardView.ProductSavedMessage | src/pages/Dashboard.tsx:126 | the save notification contains the saved product's name as the server returned it |
| DashboardView.CategorySavedMessage | src/pages/Dashboard.tsx:145 | the create notification contains the created category's name as the server returned it |
| DashboardSession.Session.constructor | src/pages/Dashboard.tsx:34-42 | no products or categories, loading, empty search, all categories selected, dialogs closed, nothing edited |
| DashboardSession.Session.FetchData | src/pages/Dashboard.tsx:44-68 | a load replaces the products with their status-mapped list and the categories with the sentinel list; a failure keeps both and reports it; loading ends either way |
| DashboardSession.Session.SetSearchTerm | src/pages/Dashboard.tsx:219 | changes the filtered list only; the statistics stay as they were |
| DashboardSession.Session.SetSelectedCategory | src/pages/Dashboard.tsx:225 | changes the filtered list only; the statistics stay as they were |
| DashboardSession.Session.AddProduct | src/pages/Dashboard.tsx:92-95 | clears the edited product and opens the product dialog |
| DashboardSession.Session.EditProduct | src/pages/Dashboard.tsx:97-100 | sets the edited product and opens the product dialog |
| DashboardSession.Session.CloseProductDialog | src/pages/Dashboard.tsx:244 | closes the product dialog |
| DashboardSession.Session.OpenCategoryDialog | src/pages/Dashboard.tsx:180 | opens the category dialog |
| DashboardSession.Session.CloseCategoryDialog | src/pages/Dashboard.tsx:246 | closes the category dialog |
| DashboardSession.Session.DeleteProduct | src/pages/Dashboard.tsx:102-104 | no request and no state change without confirmation; with it, a delete of exactly that id |
| DashboardSession.Session.SettleDelete | src/pages/Dashboard.tsx:105-112 | success records the deleted notification and refetches: loading ends, a good load replaces products and categories with the status-mapped and sentinel lists, a failed one keeps them and adds the load error; failure records the error text and leaves products, categories and loading as they were; search, category filter, dialogs and edited product never change |
| DashboardSession.Session.SaveProduct | src/pages/Dashboard.tsx:116-119 | update of the edited product's id when one is being edited, create otherwise |
| DashboardSession.Session.SettleSaveProduct | src/pages/Dashboard.tsx:121-135 | success closes the product dialog, records the notification naming the saved product and refetches as above; failure records the server message or the fallback and leaves products, categories, loading and the dialog as they were; search and category filter never change |
| DashboardSession.Session.SaveCategory | src/pages/Dashboard.tsx:138-139 | a create request with the given name |
| DashboardSession.Session.SettleSaveCategory | src/pages/Dashboard.tsx:140-154 | success closes the category dialog, records the notification naming the category and refetches as above, the sentinel staying first; failure records the server message or the fallback and leaves products, categories, loading and the dialog as they were; search and category filter never change |
| DashboardSession.StatsOfLoad | src/pages/Dashboard.tsx:83-90 | under a current load, estoqueBaixo + semEstoque <= totalProdutos and the three status counts partition the products |
| Strings.TrimSpec | src/components/CategoryDialog.tsx:28 | trim keeps a contiguous piece of the input, cuts only white space, and leaves none at either end |
| Strings.TrimEmptyIff | src/components/CategoryDialog.tsx:28 | the trimmed name is empty exactly when the name is white space only |
| Strings.TrimIdempotent | src/components/CategoryDialog.tsx:29 | trimming the trimmed name changes nothing |
| Strings.Trim | src/components/CategoryDialog.tsx:28 | the trimmed text is no longer than the input and has no white space at either end |
| Strings.Lower | src/pages/Dashboard.tsx:76 | lower-casing keeps the length and maps each character on its own |
| Strings.LowerIdempotent | src/pages/Dashboard.tsx:76 | lower-casing twice is lower-casing once |
| Strings.Includes | src/pages/Dashboard.tsx:76 | the empty term is included in every text, and an included term is never longer than the text |
| Strings.IncludesIff | src/pages/Dashboard.tsx:76 | includes holds exactly when the term occurs at some position of the name |
| Strings.PrefixBefore | src/components/ProductDialog.tsx:47 | split(c)[0] is a prefix without c, followed by c when shorter than the input |
| Strings.PrefixBeforeJoin | src/components/ProductDialog.tsx:47 | splitting head + c + tail at c gives back the head when the head has no c |
| Numbers.NatToString | src/components/ProductDialog.tsx:46 | the text of a number is non-empty digits without a leading zero |
| Numbers.NatToStringRoundTrip | src/components/ProductDialog.tsx:46 | the digits of n denote n |
| Numbers.ParseNat | src/components/ProductDialog.tsx:68 | a number is read exactly when the text is a non-empty run of digits |
| Numbers.IntToString | src/components/ProductDialog.tsx:46 | parseInt of the text of any integer gives the integer back |
| Numbers.ParseInt | src/components/ProductDialog.tsx:68 | an integer is read exactly when the text is non-empty digits or a minus followed by non-empty digits, and without a minus it is not negative |
| Numbers.CentsRoundTrip | src/components/ProductDialog.tsx:67 | reading back the text of a non-negative price gives the price |
| Numbers.PriceToString | src/components/ProductDialog.tsx:45 | parseFloat of the text of any price gives the price back |
| Numbers.ParsePrice | src/components/ProductDialog.tsx:67 | plain digits are read as that many whole reais; a price read has non-empty text, and without a minus it is not negative |
| ProductForm.WithField | src/components/ProductDialog.tsx:55-61 | the named field takes the value and the other five keep theirs |
| ProductForm.InitialStateBlank | src/components/ProductDialog.tsx:29-36 | every field of the initial draft is empty |
| ProductForm.DatePart | src/components/ProductDialog.tsx:47 | the seeded date is a prefix of the product's date with no 'T', followed by 'T' when shorter; an empty date gives '' |
| ProductForm.DatePartOfDateTime | src/components/ProductDialog.tsx:47 | for a full-date, 'T', then a time, the seeded date is the full-date |
| ProductForm.Seed | src/components/ProductDialog.tsx:41-49 | the seeded draft copies name and description, holds the date part, and its price, quantity and category texts read back as the product's own values |
| ProductForm.FormFor | src/components/ProductDialog.tsx:40-52 | with no product every field is blank and the draft is invalid; with a product the draft is valid exactly when the product has a name and a non-empty date part |
| ProductForm.IsValid | src/components/ProductDialog.tsx:78 | the draft is valid exactly when every field except the description is non-empty |
| ProductForm.DescriptionOptional | src/components/ProductDialog.tsx:78 | editing the description never changes validity |
| ProductForm.ToPayload | src/components/ProductDialog.tsx:64-73 | the payload copies nome, descricao and dataDeValidade unchanged |
| ProductForm.SeedPayloadRoundTrip | src/components/ProductDialog.tsx:41-73 | submitting an untouched seeded draft sends the product's own name, description, price, quantity, date part and category id |
| ProductForm.CategoryOptions | src/components/ProductDialog.tsx:98 | the options are an order-preserving subsequence of the given categories, none with id 0 |
| ProductForm.CategoryOptionsCounts | src/components/ProductDialog.tsx:98 | a category with a non-zero id is offered exactly as often as it is given; one with id 0 never is |
| ProductForm.CategoryOptionsComplete | src/components/ProductDialog.tsx:98 | every category with a non-zero id is offered |
| ProductForm.CategoryOptionsDropSentinel | src/components/ProductDialog.tsx:98 | the sentinel is never offered; with no fetched id 0 the options are exactly the fetched categories |
| ProductForm.ProductDialog.constructor | src/components/ProductDialog.tsx:38-53 | on mount the draft is the product's seeded draft, or the blank one |
| ProductForm.ProductDialog.Rerender | src/components/ProductDialog.tsx:40-53 | the draft is re-seeded exactly when the product or the open flag changed, and kept otherwise |
| ProductForm.ProductDialog.RerenderAsWritten | src/components/ProductDialog.tsx:40-53 | as written, every render re-seeds the draft |
| ProductForm.ProductDialog.HandleChange | src/components/ProductDialog.tsx:55-61 | replaces exactly the named field |
| ProductForm.ProductDialog.SubmitEnabled | src/components/ProductDialog.tsx:115 | the submit button is enabled exactly when every field except the description is non-empty, and then the payload has a name and a date |
| ProductForm.ProductDialog.Submit | src/components/ProductDialog.tsx:63-76 | asks the parent to save and then close; the payload copies the texts and carries the parsed price, quantity and category id; when the button is enabled, the payload's name and date are non-empty |
| ProductForm.TypedNameKept | src/components/ProductDialog.tsx:40-61 | a name typed into a blank form survives the next render |
| ProductForm.TypedNameLostAsWritten | src/components/ProductDialog.tsx:40-61 | as written, the render after typing a name blanks it again |
| CategoryForm.CategoryDialog.constructor | src/components/CategoryDialog.tsx:19 | the name starts empty |
| CategoryForm.CategoryDialog.SetName | src/components/CategoryDialog.tsx:55 | the name becomes the typed text |
| CategoryForm.CategoryDialog.Rerender | src/components/CategoryDialog.tsx:21-25 | the name is cleared when the dialog has just closed and kept otherwise |
| CategoryForm.CategoryDialog.SaveDisabled | src/components/CategoryDialog.tsx:68 | the save button is disabled exactly when the name is white space only |
| CategoryForm.CategoryDialog.Submit | src/components/CategoryDialog.tsx:27-32 | save-then-close exactly when the trimmed name is non-empty, i.e. exactly when the button is enabled; the saved name is the trimmed one, non-empty, with no outer white space; a blank name does nothing |
| CategoryForm.SubmitThenReopen | src/components/CategoryDialog.tsx:21-32 | after a save the reopened dialog shows an empty field; a blank name is neither saved nor cleared |

## Findings

| source | as written | input that shows it | evidently intended | confidence | as-written member | corrected member |
|---|---|---|---|---|---|---|
| src/components/ProductDialog.tsx:53 | the seeding effect lists `initialState` as a dependency, and `initialState` is a new object on every render, so the effect runs after every render and overwrites each edit | a blank form, `handleChange` on `nome` with "Leite", then the render that follows: `nome` is "" again | re-seed only when `product` or `open` changes | high; not executed | ProductForm.TypedNameLostAsWritten | ProductForm.ProductDialog.Rerender |

## Left out

- The HTTP service modules `src/api/ProdutoService.ts` and `src/api/CategoriaService.ts` are not modelled. This includes the unused low-stock and expired-product queries. Each load and mutation outcome is a parameter.
- The `Promise.all` in `fetchData` is not modelled: a load succeeds or fails as a whole.
- Concurrent refetches and their races are not modelled: a refetch is one atomic replacement of the state. After a successful mutation, the success notification is recorded before the refetch's own.
- The "in progress" toasts of `toast.promise` are not recorded. Success and error notifications are kept in the session's `toasts` list.
- `window.confirm` is a boolean parameter.
- The error's `toString()` text is a field of the error. Whether the error is an axios error is also a field.
- All rendering, styling and the status chip labels are not modelled. This includes the loading spinner conditions and `toFixed(2)`.
- Floating point is not modelled: prices are whole cents and `valorTotalEstoque` is an exact integer sum.
- Numbers.ParsePrice: accepts only an optional minus, digits, and at most two decimals. `parseFloat` also accepts other inputs, such as leading white space, trailing text, exponents, ".5" or more decimals; for these the model gives `None`.
- Numbers.ParseInt: accepts only an optional minus followed by digits. `parseInt` also skips leading white space and stops at trailing text; for these the model gives `None`.
- Numbers.IntToString: does not model the exponent notation JavaScript uses from 1e21 on. It also does not model the loss of integer precision above 2^53.
- Strings.Lower: lower-cases only the ASCII letters A to Z. It does not model Unicode case mapping.
- ProductForm.ProductDialog.Rerender: compares props by value, where React compares them by identity.
- An absent or `null` expiry date is not modelled; dates are strings, and the empty string gives ''.
- `handleChange` for an input name outside the six fields is not modelled, since no such input exists.
