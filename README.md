# Todo entity of SPA-Todos, in Dafny

The browser client of SPA-Todos keeps its tasks as `Todo` objects
(`public/javascripts/app.js`). A `Todo` is built from a plain record the
server returns. It has two mutators of its completion flag, `toggle` and
`complete`. It also has the accessor `groupString`, which gives the
month/year label that tasks are grouped under.

This project models that class:

- `Wrappers.Option` stands in for JavaScript's `null`/`undefined`.
- `Todos.Props` is the server record: `id`, `title`, `day`, `month`, `year`, `completed` and `description`.
- `Todos.Todo` is a class with the same seven mutable fields. Its mutators declare `modifies this`completed`, so the frame itself says that nothing else can change.
- `Todos.Todo.GroupString` declares `reads this`month, this`year`, so the frame says that the label depends on month and year alone.
- The value-level functions `Toggled`, `Completed` and `GroupLabel` specify the class members. The lemmas are stated about them.
- `SplitLabel` is the partner of `GroupLabel`. It splits a label at its first `/`. `LabelRoundTrip` proves that it recovers month and year whenever the month has no `/`. Months are numeric strings such as `"04"`.

JavaScript falsiness of `month` and `year` is modelled by `Present`: a value is falsy exactly when it is `None` or the empty string.

The label follows the code: `month + "/" + year` with the full year, or `null`
(`None`) when either part is falsy. A later design of the application uses a
two-digit year and a "No Due Date" sentinel instead. That variant is not the
code of `app.js`, so the model does not follow it.

## Model

| member | source | states |
|---|---|---|
| `Todos.Todo.constructor` | public/javascripts/app.js:2-10 | each of the seven fields equals the corresponding field of the input record (the object's whole state is the record) |
| `Todos.Todo.Toggle` | public/javascripts/app.js:12-14 | may modify only `completed`; afterwards `completed` is the negation of its old value and every other field is unchanged |
| `Todos.Todo.Complete` | public/javascripts/app.js:16-18 | may modify only `completed`; afterwards `completed` is true whatever it was, every other field unchanged |
| `Todos.Todo.GroupString` | public/javascripts/app.js:20-26 | reads only `month` and `year` (so it modifies nothing and ignores `day`, `completed` and the rest) and returns the label `GroupLabel` specifies |
| `Todos.GroupLabel` | public/javascripts/app.js:20-26 | absent exactly when month or year is null or empty; otherwise the label starts with the month, has `/` right after it and ends with the full year, with nothing else in it |
| `Todos.Toggled` | public/javascripts/app.js:12-14 | the record after `toggle`: `completed` negated, every other field equal to the input's |
| `Todos.Completed` | public/javascripts/app.js:16-18 | the record after `complete`: `completed` true, every other field equal to the input's |
| `Todos.ToggledInvolution` | public/javascripts/app.js:12-14 | toggling twice gives back the original record |
| `Todos.CompletedIdempotent` | public/javascripts/app.js:16-18 | completing an already completed record changes nothing |
| `Todos.FirstSeparator` | public/javascripts/app.js:25 | finds the first `/` of a string: absent exactly when there is none; otherwise it is a `/` with no `/` before it |
| `Todos.SplitLabel` | public/javascripts/app.js:25 | inverse of the label concatenation: absent exactly when the string has no `/`; otherwise the two parts joined by `/` give back the string, and the first part has no `/` |
| `Todos.LabelRoundTrip` | public/javascripts/app.js:25 | for a month without `/`, a present label splits back into exactly that month and that year |
| `Todos.LabelInjective` | public/javascripts/app.js:20-26 | for months without `/`, two equal present labels come from equal months and equal years |
| `Todos.FullYearLabel` | public/javascripts/app.js:20-25 | month `"04"` and year `"2019"` give `"04/2019"` (the full year); a null year or an empty month gives no label |
| `Todos.ToggleTwice` | public/javascripts/app.js:12-14 | calling `Toggle` twice on an object restores its whole state and leaves its label unchanged |
| `Todos.CompleteTwice` | public/javascripts/app.js:16-18 | two calls of `Complete` leave the same state as one, and the label is unchanged |

## Left out

- The truthiness of non-string values (`0`, `NaN`, `false`) in `month` and `year` is not modelled. These fields are nullable strings here, and only `null` and `""` are falsy.
- A non-boolean `completed` and JavaScript's coercion in `!this.completed` are not modelled. `completed` is a `bool`.
- Props whose fields are missing (`undefined`) are modelled only for `day`, `month` and `year` (as `None`). `id`, `title` and `description` are always present in the record type.
- The task collection, filtering, due-date counting, rendering and the HTTP calls are not part of this model. `app.js` holds only the `Todo` class.
- Todos.LabelRoundTrip: requires the month to contain no `/`. A month with a `/` (never a numeric month) gives a label that cannot be split back uniquely.
