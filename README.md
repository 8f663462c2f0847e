# Cash-flow and entity controllers of a small-business back end, in Dafny

This project models the HTTP controllers of an AdonisJS back end that runs small businesses.
A user owns companies. Each company has products, customers, employees, product or service
types and appointments. The centre of the model is the cash-flow ledger, which links three
tables:

- every product has a stock `amount`;
- every company has three running revenue aggregates (`dayValue`, `monthValue`, `anualValue`);
- every sale or purchase is one ledger entry (`transitions_buy_sells`), which can later be
  cancelled.

The database is one class, `Store.Db`, with a map per table, an auto-increment counter per
map, and the ledger as a sequence (entry id = position + 1). Each mutating handler is a
method on `Db`. Its frame names exactly the tables the handler writes. Its `ensures` give the
HTTP outcome (status and reason) on every path and the complete new state. Read handlers are
functions of the tables.

`Db.Valid()` is the invariant that every handler of the model keeps. The database's cascading deletes, which the model leaves out, do not keep it (see "Left out"):

- every id lies below its counter;
- a company's three aggregates each equal `Ledger.CompanySum`, the amounts the ledger has put
  into that company and not taken back;
- entries naming a company id that was never handed out carry no money;
- company names are unique;
- customer names and type names are unique within a company;
- non-empty employee emails are unique.

Where the design description and the code differ, the model follows the code:

- the aggregates count every saida entry, whatever its status, as well as the entradas that
  are not cancelled, because creating an entry credits its amount for either type and
  cancelling refunds only an entrada (`Ledger.SaidaCountsAsRevenue`);
- the creation-date filter of the transaction listing is inclusive at both ends.

Modules:

- `Wrappers`, `Http`, `Text`: optional values, outcomes with status codes, and JavaScript
  truthiness (`if (s)`, `s || null`, `n || 0`).
- `Sorting`, `Tables`: `ORDER BY` as an insertion sort, and `SELECT … WHERE … ORDER BY` over a
  map table.
- `Schema`: the rows. `Ledger`: how the ledger determines the aggregates. `Store`: the
  database and its invariant.
- `CashFlow` models the mutating handlers of `cash_flow_controller.ts`; `CashFlowQueries`
  models its listing and its summary.
- `Companies`, `Products`, `Customers`, `Employees`, `ProductTypes`, `Schedules` model one
  controller each.

## Model

| member | source | states |
|---|---|---|
| CashFlow.RecordRefusal | app/controllers/cash_flow_controller.ts:39-57 | A refused sale answers 404 for a missing product first, then 404 for a missing company, then 400 carrying the available and the requested quantity for a stock-tracked product short of stock |
| CashFlow.CreateTransaction | app/controllers/cash_flow_controller.ts:9-100 | 401 without a caller. Every refusal writes nothing. Success appends exactly one confirmed entry with the given fields and lowers the product's amount by the quantity. It raises each of the company's three aggregates by the amount, for either type. A stock-tracked product never goes below zero. The invariant is kept |
| CashFlow.CashEntry | app/controllers/cash_flow_controller.ts:243-333 | Same guards as a transaction. The type is fixed to entrada, the quantity defaults to 1 and the payment method to dinheiro. The description becomes "Venda de <name>" when falsy. `newStock` is the product's amount after the decrement |
| CashFlow.CancelTransaction | app/controllers/cash_flow_controller.ts:336-383 | 404 for an unknown entry and 400 for a cancelled one, writing nothing. Otherwise only that entry becomes cancelado. An entrada gives its quantity back to the product and takes its amount off the three aggregates, each only if the row still exists. A saida changes only its status. The invariant is kept |
| CashFlow.SellThenCancel | app/controllers/cash_flow_controller.ts:355-372 | A sale followed by the cancellation of its entry leaves products and companies exactly as before. The ledger keeps the entry, cancelled |
| CashFlow.CancelTwice | app/controllers/cash_flow_controller.ts:344-352 | A second cancel of the same entry answers 400 and never refunds twice. The state is that of one cancel |
| Ledger.Credit | app/controllers/cash_flow_controller.ts:79-81 | The three aggregates move by the same amount and nothing else about the company changes |
| Ledger.RecordKeepsAggregates | app/controllers/cash_flow_controller.ts:60-82 | Appending a confirmed entry and crediting its company keeps every company's aggregates equal to its ledger sum |
| Ledger.CancelKeepsAggregates | app/controllers/cash_flow_controller.ts:361-372 | Cancelling a live entry and refunding it (only for an entrada) keeps every company's aggregates equal to its ledger sum, for either type |
| Ledger.RecordNothingKeepsAggregates | app/controllers/products_controller.ts:240-248 | Appending an entry with amount 0 changes no company's ledger sum |
| Ledger.CancelKeepsStrays | app/controllers/cash_flow_controller.ts:371-372 | Cancelling an entry never gives money to a company id not yet handed out |
| Ledger.RecordThenCancelRestores | app/controllers/cash_flow_controller.ts:355-372 | Recording an entrada and then cancelling it restores every company's ledger sum |
| Ledger.SaidaCountsAsRevenue | app/controllers/cash_flow_controller.ts:79-81 | Appending a saida entry of any status to any ledger raises its company's ledger sum by its amount and leaves its confirmed entrada revenue as it was |
| Ledger.CompanySumIsRevenueWithoutSaida | app/controllers/cash_flow_controller.ts:363-367 | For a company with no saida and nothing pending, the aggregate sum is exactly its confirmed entrada revenue |
| Ledger.FreshCompanyHasNothing | app/controllers/companies_controller.ts:30-32 | A company id not handed out yet has a ledger sum of 0, so the zero initialisation agrees with the ledger |
| Store.AggregatesAgree | app/controllers/companies_controller.ts:30-32 | In every valid state, dayValue, monthValue and anualValue of a company are equal |
| Store.RecordKeepsTrading | app/controllers/cash_flow_controller.ts:60-82 | A recorded sale keeps the ledger invariant of companies, products and the ledger |
| Store.CancelKeepsTrading | app/controllers/cash_flow_controller.ts:354-372 | A cancellation keeps the ledger invariant |
| Store.AddCompanyKeepsTrading | app/controllers/companies_controller.ts:23-34 | Opening a company with zero aggregates and an unused name under the next id keeps the ledger invariant |
| Store.RecordNothingKeepsTrading | app/controllers/products_controller.ts:240-248 | Appending an entry with amount 0 keeps the ledger invariant without touching products or companies |
| Store.RemoveCompanyKeepsTrading | app/controllers/companies_controller.ts:131 | Deleting a company keeps the ledger invariant |
| Store.ProductsChangeKeepsTrading | app/controllers/products_controller.ts:38-50 | Any change to the products table that keeps ids below the counter keeps the ledger invariant |
| CashFlowQueries.Matching | app/controllers/cash_flow_controller.ts:113-130 | Exactly the company's entries, each once and with its id, newest first. The type filter applies only when the type is truthy. The inclusive creation range applies only when both dates are present and valid |
| CashFlowQueries.Window | app/controllers/cash_flow_controller.ts:132 | A page holds `limit` rows from row `offset` on, clipped to the list. A page past the end is empty |
| CashFlowQueries.GetTransactions | app/controllers/cash_flow_controller.ts:103-140 | 401 without a caller. Otherwise the page is page `page` (default 1) of `limit` rows (default 20) of the matching entries. The total is their count. The default page is the first 20 |
| CashFlowQueries.FirstRowsAreNewest | app/controllers/cash_flow_controller.ts:117 | No matching entry left out of the first rows is newer than one shown |
| CashFlowQueries.NewestPrefix | app/controllers/cash_flow_controller.ts:117 | In a list sorted newest first, a row of a prefix is no older than a row outside it |
| CashFlowQueries.Transactions | app/controllers/cash_flow_controller.ts:177-180 | Exactly the company's confirmed entries created in the period, bounds included |
| CashFlowQueries.Entradas | app/controllers/cash_flow_controller.ts:183-184 | Exactly the entradas of the given entries |
| CashFlowQueries.TotalEntradasIsRevenue | app/controllers/cash_flow_controller.ts:183-185 | Filtering the entradas of the period and summing their amounts gives the period's confirmed entrada revenue, an independent recursive definition |
| CashFlowQueries.TransactionsCount | app/controllers/cash_flow_controller.ts:216 | The transaction count is the number of ledger positions the main query selects |
| CashFlowQueries.WholeHistoryRevenue | app/controllers/cash_flow_controller.ts:177-185 | Over a window covering all of a company's entries, the period revenue is its whole confirmed entrada revenue |
| CashFlowQueries.SummaryMatchesAggregates | app/controllers/cash_flow_controller.ts:183-187 | For a company that only sold and has nothing pending, the summary's revenue over its whole history equals its stored aggregates |
| CashFlowQueries.FoldMethodsSpec | app/controllers/cash_flow_controller.ts:190-195 | The reduce over payment methods has a key for each key it started with and each method that occurs. Each value is the starting value plus that method's total |
| CashFlowQueries.PaymentMethods | app/controllers/cash_flow_controller.ts:190-195 | The keys are exactly the methods that occur among the period's confirmed entries, of either type. Each maps to the summed amount of its entries |
| CashFlowQueries.MethodTotalsAddUp | app/controllers/cash_flow_controller.ts:190-195 | The five per-method totals add up to the period's total amount |
| CashFlowQueries.AbsentMethodTotal | app/controllers/cash_flow_controller.ts:192 | A method no entry uses totals 0 |
| CashFlowQueries.PaymentMethodsAddUp | app/controllers/cash_flow_controller.ts:190-195 | The payment-method totals of a summary add up to the total amount of the period's confirmed entries |
| CashFlowQueries.Sold | app/controllers/cash_flow_controller.ts:198-201 | Exactly the company's entradas created in the period, of any status, cancelled included |
| CashFlowQueries.ProductIds | app/controllers/cash_flow_controller.ts:203 | The groups of `GROUP BY productId`: each product that occurs, once |
| CashFlowQueries.Groups | app/controllers/cash_flow_controller.ts:203-205 | One row per product sold, with its total quantity |
| CashFlowQueries.Ranked | app/controllers/cash_flow_controller.ts:206 | The groups ordered by decreasing total quantity, one row per product |
| CashFlowQueries.DistinctProductsPermutation | app/controllers/cash_flow_controller.ts:203-206 | Any reordering of the groups still has one row per product |
| CashFlowQueries.RankedPrefix | app/controllers/cash_flow_controller.ts:206-207 | The first `n` ranked rows are by decreasing quantity, one per product, with true totals, and a product not among them sold no more than each of them |
| CashFlowQueries.RankedPrefixCovers | app/controllers/cash_flow_controller.ts:206-207 | A product left out of a prefix of the ranking sold no more than every product in it |
| CashFlowQueries.TopProducts | app/controllers/cash_flow_controller.ts:198-207 | At most five rows, by decreasing quantity, one per product, each with its true total. Any product sold in the period is shown, or five rows are shown and each sold at least as much |
| CashFlowQueries.GetCashFlowSummary | app/controllers/cash_flow_controller.ts:143-240 | 401 without a caller. The period defaults to today and the balance equals the revenue. When a clock reading is missing, every figure is zero. Otherwise revenue, count, payment totals and best sellers equal their reference definitions |
| CashFlowQueries.UnknownPeriodIsToday | app/controllers/cash_flow_controller.ts:156-171 | An unknown period is summarised exactly like today, apart from the echoed period name |
| Companies.CreateCompany | app/controllers/companies_controller.ts:7-47 | 401, or 403 when any company of any user holds the name, writing nothing. Otherwise the company gets the next id, the caller as owner, employees defaulting to "" and zero aggregates. The invariant is kept |
| Companies.GetAllCompany | app/controllers/companies_controller.ts:50-71 | Exactly the companies whose owner is the caller, in id order |
| Companies.GetCompanyById | app/controllers/companies_controller.ts:74-98 | 400 without an id. Otherwise the company, or nothing, for any caller |
| Companies.NoOwnershipCheckOnRead | app/controllers/companies_controller.ts:84-93 | The answer of the by-id read is the same for every authenticated caller |
| Companies.DeleteCompany | app/controllers/companies_controller.ts:100-139 | 400 without an id, 404 for an unknown company and 403 for another user's company, writing nothing. Otherwise exactly that company is removed |
| Companies.CreateThenList | app/controllers/companies_controller.ts:29-32 | A company just created appears in its creator's listing with zero aggregates |
| Products.CreateProduct | app/controllers/products_controller.ts:7-59 | 403 unless the caller owns the company, then 403 for a name the company already uses, writing nothing. Otherwise the product is saved with the documented defaults. Per-company name uniqueness, where it held, still holds |
| Products.NewProductDefaults | app/controllers/products_controller.ts:40-47 | With nothing given, a product has amount 0, minAmount 0, stock tracking off, valueCoast 0 and empty supplier, internal code, barcode and observation |
| Products.GetAllProduct | app/controllers/products_controller.ts:61-94 | 400 without an id and 403 unless the caller owns the company. Otherwise exactly that company's products |
| Products.ProductRefusal | app/controllers/products_controller.ts:110-126 | The by-id guards in order: 400 without an id, 404 for an unknown product, 403 when its company is not the caller's |
| Products.GetProductById | app/controllers/products_controller.ts:96-133 | The product, once the guards pass |
| Products.ApplyProductPatch | app/controllers/products_controller.ts:167-177 | Each field given replaces the stored one and each absent one is kept. The company never changes |
| Products.EmptyPatchIsIdentity | app/controllers/products_controller.ts:167-177 | An update with no fields changes nothing |
| Products.PatchIdempotent | app/controllers/products_controller.ts:167-177 | Applying the same update twice is applying it once |
| Products.UpdateCanDuplicateName | app/controllers/products_controller.ts:167 | An update may give a product the name of another product of its company, breaking per-company name uniqueness |
| Products.UpdateProduct | app/controllers/products_controller.ts:135-186 | After the by-id guards, which write nothing, the product becomes the patched product and nothing else changes |
| Products.DeleteProduct | app/controllers/products_controller.ts:188-227 | After the by-id guards, exactly that product is removed |
| Products.TransitiosBuySell | app/controllers/products_controller.ts:230-260 | 401, or one entry appended with only product and company set: entrada, amount 0, quantity 1, dinheiro, confirmado. Stock and aggregates are untouched. The product and company lookups are answered |
| Customers.ByNameTotalPreorder | app/controllers/customers_controller.ts:16-17 | Ordering by name is a total preorder, so the listings come out sorted |
| Customers.Index | app/controllers/customers_controller.ts:8-24 | 401, or every customer exactly once, ordered by name |
| Customers.GetByCompany | app/controllers/customers_controller.ts:29-52 | 400 without a company. Otherwise exactly that company's customers, once each, ordered by name |
| Customers.CustomerRefusal | app/controllers/customers_controller.ts:65-75 | The by-id guards in order: 400 without an id, 404 for an unknown customer |
| Customers.Show | app/controllers/customers_controller.ts:57-82 | 400 without an id, 404 for an unknown customer, otherwise the customer |
| Customers.CreateCustomer | app/controllers/customers_controller.ts:87-132 | 400 unless name and company are truthy, 409 when the company has a customer of that name, writing nothing. Otherwise 201 with empty email, phone and address stored as null. Name uniqueness is kept |
| Customers.ContactAfter | app/controllers/customers_controller.ts:176-178 | An absent contact field is kept. A present one is replaced, a falsy value giving null |
| Customers.PatchCustomer | app/controllers/customers_controller.ts:159-178 | A truthy name replaces the stored one. The company never changes |
| Customers.PatchCustomerIdempotent | app/controllers/customers_controller.ts:159-178 | Applying the same update twice is applying it once |
| Customers.EmptyCustomerPatch | app/controllers/customers_controller.ts:159-178 | An update with no contact fields and a falsy name changes nothing |
| Customers.UpdateCustomer | app/controllers/customers_controller.ts:137-190 | 400 or 404 after the guards. 409 when another customer of the same company holds the given name, while keeping one's own name is allowed. All refusals write nothing. Otherwise the customer is patched. Name uniqueness is kept |
| Customers.DeleteCustomer | app/controllers/customers_controller.ts:195-222 | 400 or 404, or exactly that customer is removed |
| Customers.CreateTwice | app/controllers/customers_controller.ts:104-113 | A second customer of the same name in the same company is refused with 409 |
| Employees.Index | app/controllers/employees_controller.ts:9-26 | Every employee exactly once, newest first |
| Employees.GetByCompany | app/controllers/employees_controller.ts:31-51 | Exactly the company's employees, once each, newest first |
| Employees.Show | app/controllers/employees_controller.ts:56-83 | The employee, or 404 |
| Employees.NewEmployeeDefaults | app/controllers/employees_controller.ts:143-152 | With only the required fields, an employee has no phone, salary 0, no hire date and status ativo |
| Employees.CreateEmployee | app/controllers/employees_controller.ts:88-172 | 400 unless name, email, position and company are truthy, 400 for an unknown company, 400 for an email any employee holds, each writing nothing. Otherwise 201. Email uniqueness is kept |
| Employees.Merge | app/controllers/employees_controller.ts:221 | For each of the eight keys, a present value overwrites its column and an absent one keeps it. The creation time stays. An empty request changes nothing |
| Employees.MergeIdempotent | app/controllers/employees_controller.ts:221 | Merging the same data twice is merging it once |
| Employees.UpdateRefusal | app/controllers/employees_controller.ts:191-219 | 404 for an unknown employee, 400 for a truthy unknown company, 400 for a changed email another employee holds. None when all pass |
| Employees.ZeroCompanySkipsCheck | app/controllers/employees_controller.ts:200-208 | A company id of 0 is falsy, so it passes the controller's company check and is merged into the row. The database's foreign key would then refuse the save, which the catch answers with 400; the model, without foreign keys, stores it |
| Employees.MergeKeepsEmailsUnique | app/controllers/employees_controller.ts:211-222 | A merge that passed the email check keeps non-empty emails unique |
| Employees.UpdateEmployee | app/controllers/employees_controller.ts:177-237 | Each refusal writes nothing. Otherwise the request is merged into the employee and nothing else changes |
| Employees.DeleteEmployee | app/controllers/employees_controller.ts:242-267 | 404, or exactly that employee is removed |
| ProductTypes.CreateType | app/controllers/types_prod_services_controller.ts:7-49 | 403 unless the caller owns the company, 403 for a name the company already uses, writing nothing. Otherwise the type is saved. Name uniqueness is kept |
| ProductTypes.GetAllTypes | app/controllers/types_prod_services_controller.ts:51-84 | 400 without an id, 403 unless the caller owns the company, otherwise exactly its types |
| ProductTypes.TypeRefusal | app/controllers/types_prod_services_controller.ts:98-116 | The by-id guards in order: 400 without an id, 404 for an unknown type, 403 when its company is not the caller's |
| ProductTypes.GetTypeById | app/controllers/types_prod_services_controller.ts:86-123 | The type, once the guards pass |
| ProductTypes.UpdateType | app/controllers/types_prod_services_controller.ts:125-178 | After the guards, 403 when another type of the same company has the requested name. Otherwise the name becomes the input, or stays when absent. Name uniqueness is kept |
| ProductTypes.OwnNameNeverConflicts | app/controllers/types_prod_services_controller.ts:158-162 | Because of uniqueness, a type's own name never conflicts with another type |
| ProductTypes.DeleteType | app/controllers/types_prod_services_controller.ts:180-219 | After the guards, exactly that type is removed |
| Schedules.ChronologicalTotalPreorder | app/controllers/schedules_controller.ts:11-14 | Ordering by day, then by the time of day as text, is a total preorder |
| Schedules.Agenda | app/controllers/schedules_controller.ts:11-14 | The appointments satisfying the filter, each once, by day, then by the time of day as text |
| Schedules.Index | app/controllers/schedules_controller.ts:9-27 | Every appointment exactly once, by day, then by the time of day as text |
| Schedules.GetByCompany | app/controllers/schedules_controller.ts:32-53 | Exactly the company's appointments, once each, by day, then by the time of day as text |
| Schedules.Show | app/controllers/schedules_controller.ts:58-85 | The appointment, or 404 |
| Schedules.GetByDateRange | app/controllers/schedules_controller.ts:248-288 | 400 when a bound is missing, then 400 when one is invalid. Otherwise exactly the company's appointments whose day lies between the bounds inclusive, by day, then by the time of day as text |
| Schedules.InvertedRangeIsEmpty | app/controllers/schedules_controller.ts:266-272 | A range that ends before it starts selects nothing |
| Schedules.CreateSchedule | app/controllers/schedules_controller.ts:90-152 | 400 unless the seven required fields are truthy, 400 for an invalid day, writing nothing. Otherwise 201 with duration 60 (0 included), status agendado, and null email and notes when empty |
| Schedules.IfTruthy | app/controllers/schedules_controller.ts:183-196 | Only a truthy value overwrites a field |
| Schedules.PatchSchedule | app/controllers/schedules_controller.ts:183-197 | The company never changes. Name, phone, service type, description, time and status are overwritten only by a truthy value. The day is overwritten only by a valid one. Email and notes overwrite whenever present, null or empty included. A duration is overwritten only when nonzero, so 0 cannot be set |
| Schedules.PatchScheduleIdempotent | app/controllers/schedules_controller.ts:183-197 | Applying the same update twice is applying it once |
| Schedules.EmptyEmailKeptOnUpdate | app/controllers/schedules_controller.ts:185 | For every appointment and update, an empty email is stored as sent (`""`), while store turns the same input into null |
| Schedules.UpdateSchedule | app/controllers/schedules_controller.ts:157-213 | 404 writing nothing, or the appointment is patched and nothing else changes |
| Schedules.DeleteSchedule | app/controllers/schedules_controller.ts:218-243 | 404, or exactly that appointment is removed |
| Sorting.SortSorted | app/controllers/customers_controller.ts:16-17 | Sorting by a total preorder gives a sorted result |
| Tables.Select | app/controllers/products_controller.ts:86 | `WHERE p` returns exactly the rows satisfying `p`, with their ids, in id order |
| Tables.Query | app/controllers/customers_controller.ts:43-45 | `WHERE p ORDER BY le` returns exactly the rows satisfying `p`, each once, sorted when `le` is a total preorder |
| Text.StrLeTotal | app/controllers/customers_controller.ts:17 | Any two names compare one way or the other |
| Text.StrLeTransitive | app/controllers/customers_controller.ts:17 | The name order is transitive |

## Left out

- The AI chat and users controllers, the routes, the configuration and the models' relation
  loading (`preload`, `load`) are not part of this model.
- Authentication is the `caller` parameter: `None` is an unauthenticated request (401). The
  separate "user not found" 401 is the same case.
- Dates come in as integers: timestamps for the ledger and day numbers for appointments.
  Luxon parsing is `Text.DateParam` (absent, invalid, or a value), and the clock readings
  of the summary are `CashFlowQueries.Calendar`. Time zones and the week start are not modelled.
- Money and quantities are integers. The `float` and `decimal` columns and `Number(...)`
  coercion are not modelled. Nor is the string-to-number conversion of route and query
  parameters.
- The JSON envelopes, the messages, logging and every catch-all 500 (or 400) response for an
  unexpected error are left out. So is every database error a handler would turn into such a
  response.
- Each handler is one atomic step. The sequential, non-transactional saves and the race
  between the stock check and the decrement are not modelled.
- Foreign keys are not modelled. In the database, an entry, product, customer, employee or
  appointment naming a missing company or product would be refused. For example,
  `transitiosBuySell` with an unknown id would answer its error object instead of saving. An
  employee update with company id 0 would fail at the save and answer 400 from the catch,
  where `Employees.UpdateEmployee` answers 200 and stores it.
- `ON DELETE CASCADE` is not modelled. Deleting a company or product keeps its entries,
  products, customers, employees and appointments. In the database, a product deletion
  removes its ledger entries without adjusting the company aggregates. So the agreement of
  the aggregates with the ledger (`Ledger.AggregatesMatch` inside `Db.Valid()`) holds for the
  model's ledger only. A later cancel of such an entry answers 404 in the database and 200
  with a refund in the model.
- The unique indexes on product name, product internal code and employee email are not
  modelled.
- Store.EmailsUnique: covers non-empty emails only. An employee update that sends an empty
  email skips the email check, so nothing in the controller keeps empty emails unique.
- Store.ProductNamesUnique: not part of `Db.Valid()`. An update does not check names
  (`Products.UpdateCanDuplicateName`).
- A request field that is absent where the code assumes it present is taken as a required
  parameter: the name of a company, product or type on create. Knex would reject the
  undefined value in the duplicate query.
- In `updateType`, an absent name would likewise make the duplicate query fail.
  `ProductTypes.UpdateType` follows the controller's code, keeping the old name.
- A JSON `null` sent for a non-null text or number column (a product's amount on update, an
  employee's name in a merge) is not modelled. Such fields are plain `Option`s.
- The status values of appointments and employees are free text. The database enum would
  reject other values.
- CashFlowQueries.GetTransactions: a page below 1, or a negative limit, is clipped to an
  empty or short page. The ORM's paginator behaviour for such values is not modelled.
- Listings without `ORDER BY` come out in id order. Ties under an `ORDER BY` keep id order
  (the sort is stable), where the database is free to order them.
- String comparison is exact, and ordering is by code point. The database collation, which
  may ignore case in name checks and ordering, is not modelled.
- Schedules.Agenda, Schedules.Index, Schedules.GetByCompany, Schedules.GetByDateRange: the
  time of day is stored as sent, not normalised, and sorted as text by code point. The
  database's `time` column sorts by time value, so the two orders agree only for zero-padded
  `HH:MM[:SS]` times. For example, "10:00" sorts before "9:00" on the same day in the model.
- The `value_sell` column of products (a non-null `float` without a default) is left out.
  `createProduct` never sets it, so under MySQL strict mode the insert would fail and the
  catch would answer 500, where `Products.CreateProduct` succeeds.
- The `leave_value` column of companies is never written by the controllers and is left out,
  as are the `created_at` and `updated_at` columns, except for the ledger's and employees'
  creation times.
