# Reddit search backend and CSV download, modelled in Dafny

This project models the three pieces of sequential logic in a small web application. The application pairs a FastAPI backend with a React frontend. It proxies sign-up and login to a hosted identity provider (Supabase) and proxies keyword searches to Reddit. The frontend can download a search result as a CSV file.

- **CSV download** (`csv.dfy`, `csv_header.dfy`). `Csv.Escape` is `csvEscape`: it doubles every `"`, then encloses the field in quotes if the doubled text contains `,`, `"` or a line feed. `Csv.FormatCsv` is `formatCSV`: it writes the header line, then one line per post, joined with line feeds. Numbers are written as decimal integers (`Text.DecimalString`).
- **A CSV reader** (`csv_parse.dfy`). This is an independent reference definition. It reads fields and records as section 2 of RFC 4180 describes them, with line feeds as record separators. One difference: a line feed at the very end of a document starts one more, empty record, where RFC 4180 allows an optional final line break. The serialiser never writes a final line feed (`Csv.FormatCsv`), so the difference does not affect what the round-trip lemmas state. `csv_round_trip.dfy` proves what this reader gets back from the serialiser's output: each escaped field, each line and the whole file.
- **Authentication endpoints** (`auth.dfy`). Each call into the identity provider is an input `Outcome`: either `Returned(value)` or `Raised(exception)`. Each handler is a total function from those outcomes to a `Handled` value, which holds the HTTP response and the ordered list of provider calls the handler made. A response (`http.dfy`) carries:
  - the status;
  - the body;
  - the headers;
  - the cookies set or deleted.

  Raising an `HTTPException` produces a response built afresh from its status, detail and headers. Cookies set earlier on the injected response are dropped, because FastAPI builds a new response for the exception. `str()` of an `HTTPException` is Starlette's `"<status>: <detail>"`.
- **Reddit search** (`search.dfy`). The search client is abstracted as a `Listing`: the submissions it yields, then possibly an exception raised while iterating. The `created_date` formatter is a parameter `formatUtc`. `Search.SearchReddit` checks `limit`, records the single search call, builds one post per submission and wraps the result.

Where the code and the design intent differ, the model follows the code:
- Login sets host-only cookies with `SameSite=Lax` and no `max-age`. There is no cookie-domain policy, and the cookies do not use `SameSite=None`.
- There is no current-user resolver and no refresh-token fallback.
- Logout expires the cookies with the framework's default attributes, not the ones login used. The default is not `Secure`, not `HttpOnly`, `SameSite=Lax`, path `/`, no domain. Name, path and domain still match, and those identify a cookie to a browser (`Auth.LogoutExpiresLoginCookies`).
- The settings class defines only the provider URL and key. It has no `formatted_reset_password_url`, so forgot-password fails at that lookup (`Auth.ForgotPasswordWithoutResetUrl`).

## Model

| member | source | states |
|---|---|---|
| Csv.DoubleQuotes | frontend/src/utils/downloadUtils.ts:42 | Replacing every `"` with `""` adds exactly one character per quote. A text with no quote comes back unchanged. The result contains `"`, `,` or a line feed exactly when the input does. That nothing else changes is stated by `CsvRoundTrip.ParseDoubled`. |
| CsvRoundTrip.ParseDoubled | frontend/src/utils/downloadUtils.ts:42 | For every text, undoubling the quotes of the doubled text up to the closing quote gives the original text back, and reading stops just after that closing quote, provided the next character is not a quote. So quote doubling changes nothing but the quotes. |
| Csv.Escape | frontend/src/utils/downloadUtils.ts:40-46 | A value without `,`, `"` or a line feed is returned unchanged, and only such a value is. A value with one of them comes back starting and ending in `"`, and only such a value does. The output length is the input length plus the number of quotes, plus 2 when enclosed. |
| Csv.EscapeNullable | frontend/src/utils/downloadUtils.ts:41 | A null value escapes to the two-character string `""`. A present value is escaped as a string. |
| CsvRoundTrip.EscapeRoundTrip | frontend/src/utils/downloadUtils.ts:40-46 | Reading the escaped field back as RFC 4180 describes gives the original value, for every value. |
| CsvRoundTrip.EscapedFieldParses | frontend/src/utils/downloadUtils.ts:42-46 | An escaped field followed by a comma, a line feed or the end of input reads back as the value, and reading stops at that separator. |
| CsvRoundTrip.NullDecodesAsEmpty | frontend/src/utils/downloadUtils.ts:41 | A null cell (`""`) reads back as the empty string, yet it is written differently from an empty string, which is written as nothing. |
| CsvHeader.HeaderLineIsJoin | frontend/src/utils/downloadUtils.ts:4-6 | The comma-join of the column names is exactly `id,title,selftext,subreddit,score,num_comments,created_date,url`. |
| Csv.FormatCsv | frontend/src/utils/downloadUtils.ts:3-20 | With no posts the file is exactly the header line. Otherwise it starts with the header line and a line feed. It is never empty and never ends in a line feed. |
| Csv.LastLineNotNewline | frontend/src/utils/downloadUtils.ts:7-19 | The last line of the file, whether the header or the last post's row, is non-empty and does not end in a line feed. |
| CsvRoundTrip.RecordParses | frontend/src/utils/downloadUtils.ts:17 | A comma-join of escaped cells reads back as exactly those cells, in order. |
| CsvRoundTrip.DocumentParses | frontend/src/utils/downloadUtils.ts:5-19 | A line-feed join of such records reads back as exactly those records, in order. |
| CsvRoundTrip.FormatCsvDecodes | frontend/src/utils/downloadUtils.ts:3-20 | Reading the file back gives the column names, then one 8-cell row per post in input order. |
| CsvRoundTrip.DecodedPostRow | frontend/src/utils/downloadUtils.ts:8-17 | In the row read back for post i: `id`, `created_date` and `url` are the post's own values; `score` and `num_comments` parse back to the post's numbers; `title`, `selftext` and `subreddit` come back as `csvEscape` of the value, not the value itself. |
| CsvRoundTrip.DoubleEscapeVerbatimIff | frontend/src/utils/downloadUtils.ts:8-17 | A doubly escaped text field equals the text, and also reads back as the text, exactly when the text has no `,`, `"` or line feed. |
| CsvRoundTrip.DoubleQuotesAppend | frontend/src/utils/downloadUtils.ts:42 | Quote doubling distributes over concatenation. |
| CsvRoundTrip.DoubleEscapeOfUnquotedText | frontend/src/utils/downloadUtils.ts:8-17 | A text with a comma or a line feed but no quote is written with three quotes on each side. |
| CsvRoundTrip.CommaTitleOverQuoted | frontend/src/utils/downloadUtils.ts:10-17 | The title `a,b` is written as `"""a,b"""`. |
| Csv.FormatCsvIntended | frontend/src/utils/downloadUtils.ts:3-20 | With each field escaped once, the file is still exactly the header line when there are no posts, and otherwise starts with the header line and a line feed. |
| CsvRoundTrip.FormatCsvIntendedDecodes | frontend/src/utils/downloadUtils.ts:8-17 | With each field escaped once, the file reads back as the column names followed by each post's own values. |
| CsvRoundTrip.IntendedTitleRoundTrips | frontend/src/utils/downloadUtils.ts:10-12 | With each field escaped once, every title, selftext and subreddit reads back as itself. |
| CsvRoundTrip.FormatCsvIgnoresCreatedUtc | frontend/src/utils/downloadUtils.ts:4-17 | Two responses whose posts differ only in `created_utc` produce the same file. `total` and `has_more` play no part either. |
| Text.DecimalRoundTrip | frontend/src/utils/downloadUtils.ts:13-17 | The decimal rendering of an integer parses back to that integer. |
| Auth.Signup | fastapi-app/app/api/auth.py:36-45 | It makes exactly one sign-up call with the given credentials. It returns 200 with the fixed confirmation message exactly when the provider returned, and 400 with the exception's text when it raised. It sets no cookies or headers. |
| Auth.SignupIgnoresProviderResult | fastapi-app/app/api/auth.py:39-43 | The sign-up response is the same whatever the provider returned. |
| Auth.Login | fastapi-app/app/api/auth.py:47-70 | It makes one password sign-in call. It returns 200 exactly when the provider returned a session. Then there are exactly two cookies, `access_token` and `refresh_token`, carrying the session's tokens; both are HTTP-only, secure, `SameSite=Lax`, host-only, at path `/` and without a max-age, so they last for the browser session. No header is added. The body holds the same tokens and `token_type` `bearer`. Every other case gives 401 with `Incorrect email or password`, a `WWW-Authenticate: Bearer` header and no cookies. |
| Auth.LoginHidesProviderError | fastapi-app/app/api/auth.py:65-70 | Any two failed logins produce the same response, whatever the provider raised. |
| Auth.ExpiredCookie | fastapi-app/app/api/auth.py:74-75 | It stands for Starlette's `delete_cookie(name)` with its default arguments. The directive has the given name, path `/` and no domain, which is where login put the cookie. Its value is empty and its max-age is 0, so it expires the cookie. It is neither HTTP-only nor secure, and it is `SameSite=Lax`. |
| Auth.Logout | fastapi-app/app/api/auth.py:72-76 | It makes no provider call and always answers 200 with `Logout successful`. It emits two cookies, `access_token` then `refresh_token`, both empty with max-age 0, and adds no header. |
| Auth.LogoutExpiresLoginCookies | fastapi-app/app/api/auth.py:56-75 | Each cookie a successful login sets has no max-age and is expired by logout under the same name, path and domain. |
| Auth.ForgotPassword | fastapi-app/app/api/auth.py:78-87 | If the reset-URL setting is missing, it makes no provider call and answers 400 with the lookup's error text. Otherwise it makes one reset-email call with that URL as the redirect. It answers 200 with the fixed message exactly when the setting exists and the call returned. Every failure is 400 with the exception's text. |
| Auth.ForgotPasswordWithoutResetUrl | fastapi-app/app/core/config.py:3-5 | With settings holding only the provider URL and key, every forgot-password request answers 400 with the missing-attribute error and reaches no provider. |
| Auth.ResetPassword | fastapi-app/app/api/auth.py:93-111 | It calls `set_session` first, and `update_user` only if that returned. It answers 200 with `Password reset successfully` exactly when neither call raised and the update carries a user. It answers 400 exactly when a call raised an `AuthApiError`, with that error's text. Every other case is 500, with `str()` of the exception as the detail: the provider's exception text, or `400: Password reset failed` for a missing user. |
| Http.Str | fastapi-app/app/api/auth.py:111 | It stands for `str(e)`. A provider or other exception prints as its message. Starlette's `HTTPException` prints as its status in decimal, then `: `, then its detail, so both the status and the detail can be read back from the text. |
| Auth.ResetPasswordMissingUserIs500 | fastapi-app/app/api/auth.py:104-111 | An update that returns no user gives 500 with detail `400: Password reset failed`. |
| Auth.ResetPasswordIntended | fastapi-app/app/api/auth.py:104-107 | With the handler's own exception passed through, an update that returns no user gives 400 with `Password reset failed`. |
| Auth.ResetPasswordIntendedAgrees | fastapi-app/app/api/auth.py:93-111 | The corrected handler matches the written one on every input except a missing user, provided no provider call raises an `HTTPException`. |
| Search.EffectiveLimit | fastapi-app/app/api/reddit.py:39 | An omitted limit becomes 10. A given limit is accepted unchanged exactly when it lies in [1, 100], and rejected otherwise. |
| Search.ToPostInjective | fastapi-app/app/api/reddit.py:44-54 | Two submissions that differ in any field the mapping reads (id, title, selftext, subreddit display name, score, comment count, timestamp, permalink) give different posts. Fields the mapping never reads are not part of `Submission`. |
| Search.SearchReddit | fastapi-app/app/api/reddit.py:36-64 | A rejected limit answers 422 and makes no search. Otherwise it makes one search of `all` with the keyword and the limit. It answers 200 exactly when the limit is valid and iteration raised nothing. Then there is one post per submission, in order: fields copied, `subreddit` the display name, `created_date` the formatted timestamp, and `url` the Reddit origin plus the permalink. `total` is the number of posts and `has_more` is false. An exception answers 500 with `An error occurred while searching Reddit: ` and its text. |

## Left out

- `downloadFile` is left out because it is browser I/O (Blob, anchor element, click). `formatJSON` is left out because it only calls `JSON.stringify`.
- The insides of the Supabase client and of praw are not modelled. Their results are inputs: outcomes, and a listing of submissions followed by an optional exception.
- Search.SearchReddit: `created_date` comes from an opaque `formatUtc` parameter. Errors `datetime.utcfromtimestamp` might raise for out-of-range timestamps are not modelled. Neither are pydantic errors while building a post.
- Search.SearchReddit: a rejected `limit` or a missing `keyword` gives FastAPI's 422 validation response. Its body is kept opaque (`ValidationFailed`).
- Csv.FormatCsv: numbers are written as JavaScript renders integers. Non-integer and very large values (JavaScript switches to exponent form at 1e21) are not modelled, because the schema's counts are integers.
- Csv.Escape: a carriage return is not a quoting trigger in the source, and the reference reader treats it as ordinary data. CRLF record separators are not modelled.
- The HTML reset-password page and its template loading are left out because they return a static page.
- Settings and environment loading, and construction of the Supabase and Reddit clients, are left out because they are startup configuration. Settings enter the model only through `Auth.Settings`.
- Pydantic `EmailStr` validation of the email fields is left out because it happens in the framework before a handler runs.
- The React components, `App.tsx`, `apiClient.ts`, the Streamlit UI, the placeholder echo endpoints and the CORS/uvicorn wiring are left out because they are UI, network or framework setup with no logic of the core.
- Cookie-domain selection, fixed lifetimes for the access token (about an hour) and the refresh token (about a week), and a token-refresh fallback are not modelled because no handler implements them. Login's cookies carry no max-age and last for the browser session (`Auth.Login`).

## Findings

| source | as written | input that shows it | evidently intended | confidence | as-written member | corrected member |
|---|---|---|---|---|---|---|
| frontend/src/utils/downloadUtils.ts:10-17 | `title`, `selftext` and `subreddit` go through `csvEscape` twice: once explicitly, then again by the per-cell `map`. | A post titled `a,b` is written as `"""a,b"""` and reads back as `"a,b"`, quotes included. | Each field escaped once, so that every text field reads back as itself. | not executed | CsvRoundTrip.CommaTitleOverQuoted | CsvRoundTrip.IntendedTitleRoundTrips |
| fastapi-app/app/api/auth.py:104-111 | The `HTTPException(400, "Password reset failed")` for a missing user is raised inside the `try`. The generic `except Exception` catches it and re-raises it as 500. | `set_session` returns and `update_user` returns a response with no user. The answer is 500 with detail `400: Password reset failed`. | 400 with `Password reset failed`. | not executed | Auth.ResetPasswordMissingUserIs500 | Auth.ResetPasswordIntended |
