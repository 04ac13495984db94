# Cloud-Weather: a Dafny model of the app's decision rules

Cloud-Weather is an Android app. It shows the current weather at the device's
position, caches the last weather response in shared preferences, and runs a
periodic background worker that fetches the weather again and emails it. A
separate client uploads files to cloud storage through a pre-signed URL. Almost
all of it is glue over platform libraries. This project models the logic that
sits inside that glue, with the platform calls turned into inputs:

- `constants.dfy` (module `Constants`, from `Constants.kt`): the delay until the
  next daily run, computed step by step on a lenient `Calendar` class over days
  of a fixed 86 400 000 ms; and the connectivity predicate over the reported
  network capabilities.
- `main_activity.dfy` (module `Activity`, from `MainActivity.kt`): the
  temperature unit, `dayOrNight`, the icon-code to image table, the seconds to
  milliseconds step of `unixTime`, and a `MainActivity` class. Its
  `preferences` map and `screen` record are updated in place. `SetUpUI` runs the
  display loop over the weather entries. `WeatherDetail` handles a response:
  it writes the cache on success and classifies the error status otherwise.
- `upload_worker.dfy` (module `Worker`, from `WeatherUploadWorker.kt`): the
  outcome `doWork` reports (success, failure or retry), the permission re-check
  in `getCurrentLocation`, the worker's own `weatherDetail`, and the email
  that `sendEmail` builds and sends.
- `gcs_uploader.dfy` (module `Upload`, from `network/GcsUploader.kt`):
  base-URL normalisation, the bearer header, the signed-URL request, and the
  mapping from each upload path to exactly one callback result.
- `models.dfy` (module `Models`): the response fields the app reads, Kotlin's
  `Long` range, and the HTTP status classification shared by the activity and
  the worker. `text.dfy` (module `Text`) renders integers as Kotlin string
  templates do. `wrappers.dfy` holds the option type for Kotlin's nullable
  values.

## Behaviour worth noting

- Only `MainActivity` writes the cached response
  (MainActivity.kt:148). The background worker never writes it.
- `doWork` reports success once it has a location, whatever the weather
  request returns (WeatherUploadWorker.kt:76-88). That covers HTTP 400, 404,
  5xx and transport failures.
- A failing location provider makes `doWork` report failure, not retry
  (WeatherUploadWorker.kt:93-98). Only a null location gives retry
  (WeatherUploadWorker.kt:89-91).
- The worker asks for a location after the permission checks alone. It has no
  counterpart of the activity's `isLocationEnabled` (MainActivity.kt:63-67).
- An email failure is caught and logged inside the job that
  `weatherDetail` launches (WeatherUploadWorker.kt:178-191). It never reaches
  `doWork`, despite the rethrow in `sendEmail` (WeatherUploadWorker.kt:259-266).
- `GcsUploader` offers `getSignedUrlFromCloudFunction` and `uploadFile` as two
  independent calls. Neither one calls the other: a caller passes the signed
  URL from the first to the second.

## Model

| member | source | states |
|---|---|---|
| `Constants.Calendar.GetInstance` | app/src/main/java/my/project/weatherapp/Constants.kt:44-45 | the calendar denotes exactly the given instant, its day starts at midnight of that instant's day, and its time fields are in their usual ranges |
| `Constants.Calendar.Set` | app/src/main/java/my/project/weatherapp/Constants.kt:46-49 | the chosen field takes the given value and every other field keeps its value |
| `Constants.Calendar.Add` | app/src/main/java/my/project/weatherapp/Constants.kt:53 | the chosen field grows by the amount, every other field keeps its value, and the instant moves by the amount times the field's length |
| `Constants.GetInitialDelay` | app/src/main/java/my/project/weatherapp/Constants.kt:43-57 | the calendar steps compute the scheduled delay, with the minute defaulting to 0; for an hour and minute inside the day the delay is in [0, one day) and now plus the delay falls exactly on hour:minute:00.000 |
| `Constants.DelayWithinOneDay` | app/src/main/java/my/project/weatherapp/Constants.kt:52-56 | for a valid target the delay is never negative, because a past target moves one day on, and is less than one day |
| `Constants.DelayLandsOnTarget` | app/src/main/java/my/project/weatherapp/Constants.kt:45-56 | now plus the delay is the target time of day, seconds and milliseconds zero |
| `Constants.DelayIsNextOccurrence` | app/src/main/java/my/project/weatherapp/Constants.kt:52-56 | no shorter non-negative wait reaches the target time of day, so the delay is the next occurrence |
| `Constants.DelayZeroAtTarget` | app/src/main/java/my/project/weatherapp/Constants.kt:52 | because `before` is strict, the delay is 0 when now is exactly the target instant |
| `Constants.OutOfRangeHourGivesNegativeDelay` | app/src/main/java/my/project/weatherapp/Constants.kt:43-56 | the arguments are not checked: an hour of -48 yields a delay of minus one day |
| `Constants.IsNetworkAvailable` | app/src/main/java/my/project/weatherapp/Constants.kt:19-41 | from API level 23: true iff there is an active network with capabilities that include Wi-Fi, cellular or Ethernet; no network or no capabilities gives false; below 23: true iff the network info exists and is connected or connecting |
| `Models.ClassifyStatus` | app/src/main/java/my/project/weatherapp/MainActivity.kt:154-165 | a non-2xx status is bad request exactly for 400, not found exactly for 404, and a generic error carrying the code otherwise |
| `Activity.IconListedIff` | app/src/main/java/my/project/weatherapp/MainActivity.kt:225-237 | the table lists a code iff it is one of 01, 02, 03, 04, 09, 10, 11, 13, 50 followed by 'd' or 'n' |
| `Activity.DayNightImagesDifferOnlyFor01And02` | app/src/main/java/my/project/weatherapp/MainActivity.kt:225-237 | for every listed prefix both variants have an image, and the day and night images differ exactly for 01 and 02 |
| `Activity.ListedCodeHasImagePrefix` | app/src/main/java/my/project/weatherapp/MainActivity.kt:225-237 | every listed code is three characters long and its first two characters are the condition prefix its image stands for |
| `Activity.ImageDeterminesPrefix` | app/src/main/java/my/project/weatherapp/MainActivity.kt:225-237 | two codes with the same image have the same condition prefix |
| `Activity.DayOrNight` | app/src/main/java/my/project/weatherapp/MainActivity.kt:266-271 | for a string of length at least 3, "Day" iff the third character is 'd', "Night" otherwise |
| `Activity.DayOnlyImagesAgreeWithDayOrNight` | app/src/main/java/my/project/weatherapp/MainActivity.kt:266-271 | the sunny and few-clouds-day images come only from codes `dayOrNight` calls "Day"; the two night images come only from "Night" codes |
| `Activity.TemperatureUnit` | app/src/main/java/my/project/weatherapp/MainActivity.kt:251-257 | "°F" exactly for "US", "LR" and "MM", "°C" for every other string |
| `Activity.GetUnit` | app/src/main/java/my/project/weatherapp/MainActivity.kt:251-257 | the reassigned local gives the unit `TemperatureUnit` specifies |
| `Activity.UnixMillis` | app/src/main/java/my/project/weatherapp/MainActivity.kt:259-260 | epoch seconds times 1000 in `Long` arithmetic; without overflow the result is a whole number of seconds that divides back to the input |
| `Activity.UnixMillisWrapsForHugeTimes` | app/src/main/java/my/project/weatherapp/MainActivity.kt:260 | beyond the `Long` range the multiplication wraps around |
| `Activity.LastEntryWins` | app/src/main/java/my/project/weatherapp/MainActivity.kt:218-224 | with one or more weather entries, the main text and description shown after the loop are the last entry's, and the temperature text is set |
| `Activity.NoEntriesShowNothing` | app/src/main/java/my/project/weatherapp/MainActivity.kt:218-238 | an empty weather list leaves the loop's views, temperature included, as they were |
| `Activity.ImageOfLastListedIcon` | app/src/main/java/my/project/weatherapp/MainActivity.kt:225-237 | the image shown is that of the last entry whose code the table lists |
| `Activity.ImageKeptWithoutListedIcon` | app/src/main/java/my/project/weatherapp/MainActivity.kt:225-237 | when no entry's code is listed, the image is left unchanged |
| `Activity.CacheWriteIsRead` | app/src/main/java/my/project/weatherapp/MainActivity.kt:147-149 | after writing the single cache key, reading the cache gives the written string |
| `Activity.StoredResponseIsShown` | app/src/main/java/my/project/weatherapp/MainActivity.kt:142-150 | a stored response whose serialization decodes back to it is exactly what the following `setUpUI` shows |
| `Activity.MainActivity.SetUpUI` | app/src/main/java/my/project/weatherapp/MainActivity.kt:210-249 | an empty or missing cache changes nothing; otherwise the loop and the fields after it show the decoded response; the preferences are not touched |
| `Activity.MainActivity.WeatherDetail` | app/src/main/java/my/project/weatherapp/MainActivity.kt:120-179 | no request without a network; a 2xx response overwrites only the cache key with the serialized body and refreshes the screen; an error status is classified and a transport failure is reported, both leaving cache and screen unchanged |
| `Worker.GetCurrentLocation` | app/src/main/java/my/project/weatherapp/WeatherUploadWorker.kt:107-149 | the provider is asked iff the re-check passes; a failed re-check returns null; a provider failure is rethrown with its kind; a location the provider delivers, null or not, is returned as delivered, and a returned location is the provider's |
| `Worker.Email` | app/src/main/java/my/project/weatherapp/WeatherUploadWorker.kt:244-253 | the subject is "Weather Details: " followed by the timestamp and the body is "Latest weather update:\n\n" followed by the JSON, both readable back from the message |
| `Worker.EmailKeepsPayload` | app/src/main/java/my/project/weatherapp/WeatherUploadWorker.kt:252 | different payloads give different messages |
| `Worker.SendEmail` | app/src/main/java/my/project/weatherapp/WeatherUploadWorker.kt:224-267 | the session properties are authenticated STARTTLS to the mail host on port 587, the message is `Email`'s, and a send error is rethrown unchanged |
| `Worker.EmailJob` | app/src/main/java/my/project/weatherapp/WeatherUploadWorker.kt:178-196 | the launched job catches every send error and only logs it |
| `Worker.WorkerWeatherDetail` | app/src/main/java/my/project/weatherapp/WeatherUploadWorker.kt:151-223 | no request without a network; an email is launched exactly for a 2xx response and carries the serialized body; error statuses are classified as in the activity |
| `Worker.DoWork` | app/src/main/java/my/project/weatherapp/WeatherUploadWorker.kt:57-100 | without permission: failure and no location request; success iff both permission checks pass and a location arrives; retry iff the first check passes and the location is null, including a failed re-check; a provider exception gives failure; the weather request starts only on success |
| `Worker.ResultIgnoresFetchAndEmail` | app/src/main/java/my/project/weatherapp/WeatherUploadWorker.kt:74-99 | the reported result is the same whatever the network, the weather answer and the email outcome |
| `Worker.NoPermissionNoLocationRequest` | app/src/main/java/my/project/weatherapp/WeatherUploadWorker.kt:61-120 | the location provider is asked iff both permission checks pass |
| `Upload.NormalizeBaseUrl` | app/src/main/java/my/project/weatherapp/network/GcsUploader.kt:50 | the result ends with '/', extends the input by at most that one character, and equals the input iff the input already ends with '/' |
| `Upload.NormalizeBaseUrlIdempotent` | app/src/main/java/my/project/weatherapp/network/GcsUploader.kt:50 | normalising twice is normalising once |
| `Upload.BearerHeader` | app/src/main/java/my/project/weatherapp/network/GcsUploader.kt:130 | the header is "Bearer " followed by the token |
| `Upload.BearerHeaderInjective` | app/src/main/java/my/project/weatherapp/network/GcsUploader.kt:130 | the header identifies the token |
| `Upload.UploadFailedMessageDeterminesCode` | app/src/main/java/my/project/weatherapp/network/GcsUploader.kt:101-103 | "Upload failed: <code> - <body>" identifies the status code, whatever the bodies |
| `Upload.GcsUploader.Initialize` | app/src/main/java/my/project/weatherapp/network/GcsUploader.kt:48-59 | the client's base URL becomes the normalised URL |
| `Upload.GcsUploader.GetSignedUrlFromCloudFunction` | app/src/main/java/my/project/weatherapp/network/GcsUploader.kt:120-139 | once initialised it POSTs {fileName, contentType} to "/" with "Bearer " plus the token and returns the reply's signedUrl, possibly null; an exception, including use before `initialize`, gives null |
| `Upload.GcsUploader.UploadFile` | app/src/main/java/my/project/weatherapp/network/GcsUploader.kt:70-110 | the callback runs exactly once; a null stream fails with the URI message and sends no PUT; otherwise the PUT carries the bytes and a Content-Type equal to the argument; 2xx succeeds, another status fails with "Upload failed: <code> - <body>", and an exception is passed on as the failure |

## Left out

- Time zones, locales and daylight-saving changes: every day is 86 400 000 ms long and starts at a multiple of that length since the epoch.
- The two `Calendar.getInstance()` calls in `getInitialDelay` are taken to read the same instant; the clock is a parameter.
- `Constants.DelayWithinOneDay`, `Constants.DelayLandsOnTarget` and the range part of `Constants.GetInitialDelay` hold only for 0 ≤ hour < 24 and 0 ≤ minute < 60. The source does not check its arguments, and the lenient calendar rolls other values into other days.
- Text formatting of times (`unixTime`'s "HH:mm", the email timestamp): the screen keeps the millisecond instant, and the timestamp is a parameter.
- Gson serialization is passed in as `toJson`/`fromJson` functions. The crash on malformed cached JSON and the "null" text for a missing response body are not modelled.
- Floating-point fields (temperatures, wind speed, humidity) are kept as the text their `toString()` gives; coordinates are carried, never computed on.
- Response fields the app never reads (coordinates, base, visibility, clouds, dt, timezone, id, cod) are omitted.
- UI concerns: progress dialogs, toasts, the Dexter permission prompts, the settings intents, the options menu, `isLocationEnabled`, and the view binding that becomes null after `onDestroy`.
- The activity's location request and its callback (`requestLocationData`, the `!!` on the location) are platform calls; `WeatherDetail` takes the location as an argument.
- Coroutines, `GlobalScope.launch`, dispatchers and the cancellation token of the location request: their point is concurrency.
- Exceptions thrown while the worker's `weatherDetail` builds its Retrofit client are not modelled; only the location request throws in the model.
- `Activity.DayOrNight` requires a string of at least three characters. On a shorter one, Kotlin's `s1[2]` throws `StringIndexOutOfBoundsException`; the model does not cover that throw. The function has no caller in the app.
- `Upload.GcsUploader.UploadFile`: OkHttp's check of the signed URL in `Request.Builder().url(...)` is folded into `PutThrew`. When a malformed URL throws there, no PUT is sent, but the model still records `request` for that attempt; only the callback's failure result is right for it.
- Retrofit and OkHttp internals: URL validation in `Retrofit.Builder.baseUrl`, how the path "/" resolves against the base URL, the media type, and reading the response body.
- `Upload.GcsUploader.UploadFile`: a callback that itself throws inside the `try` would be called a second time from the `catch`. The model assumes callbacks return normally.
- The API key, the SMTP account and password, and the recipient addresses are not reproduced: the account and recipients are a `MailConfig` parameter.
- The call site of `getUnit` passes the locale list's text, which is rarely a bare country code; `getUnit` is modelled as written.
- The sign-in screen and the Firebase helper: they only call the authentication SDK.
