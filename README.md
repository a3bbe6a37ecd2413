# Shop cart, rating aggregate and task model — a Dafny model

This project models the logic of the shop application's request handlers
and of the task application's models:

- **Cart** (`cart.dfy`, module `Cart`): the session cart, a map from
  `str(product_id)` to an entry holding the quantity and a snapshot of the
  product's name and price, beside a catalogue of products. The three
  changing handlers (`add_to_cart`, `update_cart`, `remove_from_cart`) are
  pure functions `Add`, `Update` and `Remove`. Each returns a status and the
  new cart. `NotFound` stands for Flask's `abort(404)` and `get_or_404`,
  `Rejected` for a flashed validation message followed by a redirect, and
  `Ok` for success. The class `Session` holds the cart in a `map` field;
  its methods change the field step by step, as the handlers do, and are
  proved equal to those functions. `ViewCart` is the cart page: a loop
  over the entries that skips products no longer in the catalogue and adds
  up live price × quantity. It is proved to compute `Total`, an
  order-free sum over the entries.
- **Cart keys** (`keys.dfy`, module `Keys`): `Key(n)` is Python's `str(n)`
  for a non-negative id. `ParseDecimal` is the coercion of a string key
  back to an id when the cart page looks a product up. They are proved to
  round-trip, so no two ids share a key.
- **Rating** (`rating.dfy`, module `Rating`, and `catalog.dfy`, module
  `Catalog`): posting a review folds the average forward as
  (N·A + R)/(N+1), using the review count N from before the insertion.
  `ProductRecord.SubmitReview` does this read-modify-write on the record's
  fields. The lemmas show the running-mean invariant (average = sum/count)
  is preserved, and that posting ratings one at a time leaves exactly their
  mean.
- **Models** (`models.dfy`, module `Models`): `GetModel` is the fixed
  two-entry table registry. `Task.SetValues` is `Task.set_values`: it
  copies `name`, `desc` and `id_user` verbatim, and sets each date to the
  clock reading when the form value is `None` or empty. `Populate` states
  the same effect as a function.

Products are ids mapped to `ProductRecord` objects. `name`, `price` and
`stock` are constants of the record, since nothing in the modelled code
writes them. `avg_rate` and `reviews` are fields, which the review handler
changes. models.py defines neither `Product` nor `Review`, so their fields
come from how `app.py` uses them, and the default of 0 for `avg_rate` on a
product without reviews is assumed.

Two things the code does that a reader might not expect:

- `add_to_cart` checks the stock against the quantity being added, not
  against the total in the cart, so an entry can go above the stock.
  `Cart.AddCanExceedStock` shows such a case. The lower bound does hold:
  `Cart.WellFormed` (every quantity at least 1, every key a canonical `str`
  of an id) is preserved by all three handlers.
- `update_cart` looks the product up before it reaches the
  quantity-below-1 branch, so a quantity below 1 for a product that has
  left the catalogue gives `NotFound` and keeps the entry.

## Model

| member | source | states |
|---|---|---|
| `Keys.Key` | app.py:82 | `str(product_id)` is a non-empty digit string with no leading zero (except for 0 itself) |
| `Keys.ParseKey` | app.py:61 | `ParseDecimal`, the conversion of a string key back to an id, turns `str(n)` into exactly n, so every stored key is canonical |
| `Keys.KeyInjective` | app.py:82-85 | two product ids share a cart key if and only if they are equal |
| `Cart.ProductAtKey` | app.py:61-62 | `ProductAt`, the lookup of a cart key in the catalogue, finds `catalog[id]` for the key `str(id)`, or nothing if product `id` is gone |
| `Cart.LineAtKey` | app.py:62-63 | the line of the key `str(id)` is the live catalogue price of product `id` times the stored quantity, or 0 if the product is gone |
| `Cart.Add` | app.py:76-90 | unknown product: NotFound, cart unchanged; quantity < 1 or > stock: Rejected, cart unchanged; otherwise Ok, and an existing entry's quantity goes up by exactly q with name and price kept, or a new entry holds q and the product's name and price at add time; no other key changes; well-formedness is preserved |
| `Cart.Update` | app.py:98-107 | no entry, or product gone: NotFound, cart unchanged; quantity < 1: exactly `Remove`; quantity above stock: Rejected, cart unchanged; otherwise Ok, the entry's quantity is q and its name and price are kept; no other key changes; well-formedness is preserved |
| `Cart.Remove` | app.py:116-119 | Ok exactly when the entry exists; otherwise NotFound with no change; the key is absent afterwards and every other entry is kept |
| `Cart.Total` | app.py:58-69 | the order-free sum of the lines over every entry, the reference `ViewCart` is proved against; an empty cart totals 0 |
| `Cart.SumLinesRemove` | app.py:60-69 | any entry can be taken out of the sum first, so the total does not depend on the order the entries are visited in |
| `Cart.SumLinesFrame` | app.py:60-69 | the sum over a set of keys depends only on those keys' entries |
| `Cart.SumLinesBounds` | app.py:60-69 | a sum of lines that are all 0 is 0, and a sum of lines none of which is negative is not negative |
| `Cart.TotalAllMissing` | app.py:60-69 | a cart whose products have all left the catalogue totals 0 |
| `Cart.TotalNonNegative` | app.py:60-69 | with no negative price and no negative quantity, the total is not negative |
| `Cart.TotalSplit` | app.py:60-69 | the total is one entry's line (live price × quantity, or 0) plus the total of the rest |
| `Cart.TotalSkipsMissing` | app.py:61-62 | an entry whose product has left the catalogue contributes nothing to the total |
| `Cart.TotalAfterAdd` | app.py:81-90 | a successful add raises the total by the live price times the quantity added, for an old entry and for a new one |
| `Cart.TotalAfterRemove` | app.py:116-119 | a successful remove lowers the total by that entry's line |
| `Cart.TotalAfterUpdate` | app.py:102-107 | a successful quantity change replaces the entry's line by live price times the new quantity |
| `Cart.RemoveUndoesAdd` | app.py:81-119 | removing an id right after adding it, when it was absent, gives back the original cart |
| `Cart.AddCanExceedStock` | app.py:78-83 | with stock 5 and 4 already in the cart, adding 3 succeeds and leaves 7, above the stock |
| `Cart.CartScenario` | app.py:55-119 | add 2 of a product priced 100 with stock 5 to an empty cart: total 200; update to 6 is rejected and 2 stay; update to 5 sets 5; remove leaves the empty cart |
| `Cart.Session.constructor` | app.py:81 | a session that has no cart yet holds the empty cart, which is well-formed |
| `Cart.Session.AddToCart` | app.py:74-92 | the in-place update of the session cart gives exactly the status and cart of `Add`, and keeps the cart well-formed |
| `Cart.Session.UpdateCart` | app.py:96-110 | the in-place update, including the call into remove for quantities below 1, gives exactly `Update`, and keeps the cart well-formed |
| `Cart.Session.RemoveFromCart` | app.py:114-122 | deleting the key in place gives exactly `Remove`, and keeps the cart well-formed |
| `Cart.Session.ViewCart` | app.py:53-70 | an empty cart shows no rows and total 0; otherwise each row is a cart entry whose product exists, with its live product, quantity and price × quantity; every such entry has exactly one row; in a well-formed cart each row's key is `str(id)` of the catalogue id its product is filed under; the total is `Total` |
| `Rating.NextAverage` | app.py:40-43 | the new average of the first rating is that rating, and the new average always lies between the old average and the new rating |
| `Rating.SumAppend` | app.py:41-42 | the sum of the ratings with one more is the old sum plus the new rating |
| `Rating.MeanAppend` | app.py:39-43 | if the stored average was the mean of N ratings, the update gives the mean of those ratings plus R |
| `Rating.AverageAfterIsMean` | app.py:39-45 | posting ratings one by one to a product with no reviews leaves exactly their mean as its average |
| `Rating.TwoReviews` | app.py:39-43 | ratings 4 then 2 on a product without reviews give averages 4 and then 3 |
| `Catalog.RatesAppend` | app.py:39-44 | the mean of the review ratings after a review is the incremental update of the mean before it |
| `Catalog.ProductRecord.constructor` | app.py:39-41 | a new product has no reviews and, by the assumed default of `avg_rate`, average 0, the state the running mean at app.py:39-41 starts from; it satisfies average = mean of the ratings |
| `Catalog.ProductRecord.SubmitReview` | app.py:30-45 | a missing `review_text`, then a missing `review_rate`, fail with a KeyError for that key, and an anonymous user fails on `current_user.id`, each with the record unchanged; otherwise the review is built from the form, the user and two clock readings, the average becomes (N·A + R)/(N+1) for the count N before it, the review joins the list, and average = mean of the ratings is preserved |
| `Models.TableName` | models.py:11-34 | the User model's table is "users" and the Task model's is "tasks", and no other model has either name |
| `Models.GetModel` | models.py:58-61 | "users" gives the User model, "tasks" the Task model, any other name fails with a KeyError for that name |
| `Models.GetModelInverse` | models.py:58-61 | each model's table name resolves to that model, and no other name does |
| `Models.DateOrNow` | models.py:45-52 | a date is the clock reading exactly when the form value is None or empty; otherwise it is the value as given |
| `Models.Populate` | models.py:42-53 | with all five keys present, name, desc and id_user are copied verbatim and each date follows `DateOrNow` with its own clock reading; otherwise the first missing key, in reading order, is reported, the fields before it are written as on success, and the fields from it on keep their old values |
| `Models.CreatedAtIgnoresEndDate` | models.py:45-52 | the creation date does not depend on the end-date field, present or not |
| `Models.EndDateIgnoresCreatedAt` | models.py:45-52 | the end date depends on the creation-date field only through its presence |
| `Models.Task.constructor` | app.py:180 | `getModel(name)()` builds a blank task with every field unassigned, the state `set_values` starts from |
| `Models.Task.SetValues` | models.py:42-53 | assigning the fields one by one leaves exactly the fields and the missing key `Populate` gives |

## Left out

- Flask routing, `render_template`, the text of flash messages, `redirect` and `url_for`: web plumbing. Only the status of each handler is kept.
- The default `quantity` of 1 when the form has none, and `int(...)` failing on non-numeric input: the quantity is an already-parsed integer parameter.
- Registration, login and logout, `User.set_password`, `User.check_password` and `User.set_values`: they call werkzeug password hashing and flask_login sessions, which are foreign code.
- `database.py` (`get_model_fields`, `get_tables_name`), the admin pages, and the foreign-key scan in `admin_tables`. These wrap SQLAlchemy inspection and queries.
- Persistence: `db.session.add` / `commit`, `joinedload`, the index query, and the `session.modified` flag. These are database and cookie I/O.
- Concurrency, including the lost update on `avg_rate` when two reviews are posted at once. Each handler runs to completion on its own here.
- Floating point: the average is an exact `real`, and the price snapshot `float(product.price)` is kept as the integer price.
- Rating range: the handler does not check the rating against [0, 5], so the model does not either. The rating is taken as an integer; the form's text and its `float` conversion are not modelled.
- Catalog.ProductRecord.SubmitReview: works on a product that exists. When the id is unknown, the handler fails with an AttributeError, and that path is not modelled. The rating is taken as an already-converted integer, so a `review_rate` that `float` cannot read is not modelled either.
- A session without a cart is modelled as the empty cart. Every modelled handler treats the two the same way.
- Keys.ParseDecimal: looking up a string that is not a canonical key is unreachable, because every stored key is `str` of an id. Its result there is not tied to the database's own coercion.
- Cart.Session.ViewCart: does not fix the order of the rows. The handler lists them in the order the session dictionary yields; the model's map has no order, so the contract describes the rows as a set.
- Models.Task.SetValues: converting the strings to dates and integers at insert time is not modelled.
- The task's primary key `id` and the `user` relationship are assigned by the database. They are not fields of the model.
