# local-star: posts, votes and accounts, modelled in Dafny

local-star is a React Native app in which users publish reports on the physical
accessibility of places ("posts"), tag them with the kinds of accessibility they
found (ramp, accessible toilet, lift, or a free-text "Outro" entry), and vote
each report "useful" or "not useful". A post shows the share of useful votes as
two whole percentages, `positive` and `negative`. Everything the app keeps lives
in the device's key-value store (AsyncStorage):

- the whole post list, as one value under `'posts'`;
- the one registered account, under `'user'`;
- the session keys `userEmail`, `userName`, `userDisability` and `hasLoggedIn`.

The logic sits in the screens' event handlers. This model has one Dafny module
per screen, and each screen is a `class` whose fields are the screen's state.
The key-value store is a shared `Storage.Store` holding the map
`items: map<string, Blob>`. Each handler is a method whose `modifies` clause
names what it changes: the screen, the store, or both. Handlers that only read
the store (`LoadPosts`, `LoadProfile`) modify only the screen, and
`HandleLogout` changes nothing. Every handler is specified by pure functions,
and the lemmas are proved about those functions:

- `Text`: JavaScript `trim` and the "blank after trim" test (`!s.trim()`) used by every form.
- `Records`, `Storage`: the stored records, a stored value (`Blob`), and the store with `getItem`, `setItem` and `removeItem`.
- `Rating`: the vote and percentage update of `handleRating` (pages/Home.js).
- `PostStore`: decoding the `'posts'` value, and the load-time normalisation of the `accessibility` tag field.
- `PostView`: the tag filter and the stable newest-first sort of the home list.
- `Home`, `CreatePost`, `Cadastro` (registration), `Login`, `Profile`: the screens.

A stored value is `Str(s)`, `PostList(posts)` or `UserRecord(user)`.
`PostList` and `UserRecord` are what the app writes with `JSON.stringify`.
`Str(s)` stands for any other string, one that `JSON.parse` rejects, so
decoding it fails. Percentages are exact integers, rounded half up:
`(200 * useful + total) / (2 * total)`. Creation dates are integer timestamps.

Behaviour of the code that the model keeps as it is:

- A repeated vote leaves the list unchanged, but `handleRating` still rewrites `'posts'` (pages/Home.js:45-46 lie outside the per-post update).
- A stored value that fails to decode leaves the previous list on screen: `loadPosts` only logs the error (pages/Home.js:20-21).
- The "all posts" filter value is `'todos'`, and no control on the home screen ever changes it.

## Model

| member | source | states |
|---|---|---|
| Text.BlankIffAllWhitespace | pages/Cadastro.js:15 | `!s.trim()` holds exactly when every character of `s` is ECMAScript whitespace or a line terminator |
| Text.TrimKeepsInnerText | pages/Login.js:13 | `trim` returns the slice of its input that starts after the leading whitespace; only whitespace is cut off before and after it, and a non-empty result starts and ends with a character that is not whitespace |
| Rating.UsefulCount | pages/Home.js:40 | the number of "useful" votes never exceeds the number of voters |
| Rating.RoundedPercent | pages/Home.js:41 | the positive percentage is the integer nearest to 100·useful/total (ties upwards), and lies in [0,100] |
| Rating.VoteValue | pages/Home.js:36 | the "useful" button records 1 and any other rating records 0 |
| Rating.CastVote | pages/Home.js:35-43 | afterwards the ratings hold the voter's vote (a missing or array `ratings` counts as empty); a vote the voter already holds returns the post unchanged; otherwise the percentages agree with the votes; no other field changes |
| Rating.RatePosts | pages/Home.js:33-44 | same length and order; only posts whose id matches take the vote; every other post is returned as it is |
| Rating.PercentagesSumTo100 | pages/Home.js:41-42 | once a post has votes and its percentages agree with them, both lie in [0,100] and sum to 100 |
| Rating.RepeatedVoteIsNoOp | pages/Home.js:37 | casting the same vote twice in a row is the same as casting it once |
| Rating.RepeatedRatingKeepsList | pages/Home.js:33-44 | rating the list again with the same vote returns the list unchanged |
| Rating.RatingKeepsPercentagesAgreed | pages/Home.js:33-44 | if every post's percentages agree with its votes before a vote, they all agree after it |
| Rating.UsefulCountAfterVote | pages/Home.js:38-40 | overwriting a vote removes the voter's old "useful" (if any) from the count and adds the new one |
| Rating.SwitchedVoteOverwrites | pages/Home.js:36-38 | voting useful and then not useful leaves exactly one entry for the voter, holding 0, and no extra voter |
| Rating.ThreeVotesExample | pages/Home.js:39-42 | three voters voting useful, not useful and useful on a fresh post give 67% / 33% |
| Rating.CastAllKeepsPercentagesAgreed | pages/Home.js:35-43 | any sequence of votes keeps a post's percentages in agreement with its votes |
| Rating.CastAllSumsTo100 | pages/Home.js:39-42 | starting from a post whose percentages agree with its votes, after one or more votes the post has voters and its percentages lie in [0,100] and sum to 100 |
| PostStore.NormaliseTags | pages/Home.js:17 | a stored tag list is kept; a non-empty bare string becomes the one-tag list holding that string; an empty or missing field becomes [] |
| PostStore.NormaliseAll | pages/Home.js:15-18 | the loaded list has one post per stored record, in the same order, each normalised |
| PostStore.Normalise | pages/Home.js:15-18 | loading changes only the tag field; every other field of the post is kept |
| PostStore.DecodePosts | pages/Home.js:14-15 | an absent or empty value decodes to [], a stored post list to itself, anything else fails |
| PostStore.LoadedPosts | pages/Home.js:13-22 | the loaded list is the stored list with each post normalised in place, [] when the key is absent, and the previous list when decoding fails |
| PostStore.NormaliseAfterStore | pages/Home.js:46 | a loaded post written back and loaded again is the same post |
| PostStore.LegacySingleTagLoads | pages/Home.js:17 | a legacy record whose tag field is the string "Rampa" loads with the tags ["Rampa"] |
| PostStore.LoadAfterWrite | pages/Home.js:46 | the list written by the vote handler reloads as exactly the list on screen |
| PostStore.LoadAfterAppend | pages/CreatePost.js:156-157 | appending a post to the stored list and loading gives the old loaded list with that post as its last element |
| PostStore.LoadAfterRemove | pages/Profile.js:55 | once `'posts'` is removed, the next load shows no posts |
| PostView.WithTag | pages/Home.js:49 | a post is in the filtered list exactly when it is in the input and carries the tag; the filter never lengthens the list |
| PostView.WithTagCounts | pages/Home.js:49 | the tag filter keeps each post that carries the tag, as often as it occurs, and drops every other post |
| PostView.InsertNewestFirst | pages/Home.js:49 | insertion adds exactly the one post and nothing else, and the new head is either that post or the old head |
| PostView.InsertKeepsNewestFirst | pages/Home.js:49 | inserting into a newest-first list keeps it newest first |
| PostView.InsertOnDate | pages/Home.js:49 | the inserted post goes ahead of the posts already placed with the same date |
| PostView.SortNewestFirst | pages/Home.js:49 | the sorted list is a permutation of the input, with dates never increasing |
| PostView.SortOnDate | pages/Home.js:49 | the sort is stable: posts with equal dates keep their input order |
| PostView.Select | pages/Home.js:49 | the view holds exactly the posts the filter admits ('todos' admits all), each as often as in the input; it is newest first, and posts with the same date appear in input order |
| PostView.SelectAllIsPermutation | pages/Home.js:49 | with 'todos' the view holds every post, only reordered |
| PostView.SelectMembership | pages/Home.js:49 | under any other filter, a post is shown if and only if it is in the list and carries the tag |
| PostView.SortKeepsNewestFirst | pages/Home.js:49 | a list that is already newest first, equal dates included, is shown in that same order |
| Home.Voter | pages/Home.js:31-32 | the voter is the stored `userEmail`, and there is none when it is absent or empty |
| Home.HomeScreen.constructor | pages/Home.js:8-9 | the screen starts with no posts and the filter 'todos' |
| Home.HomeScreen.LoadPosts | pages/Home.js:12-22 | the list on screen becomes the loaded list, or stays as it was when the stored value does not decode |
| Home.HomeScreen.HandleRating | pages/Home.js:30-47 | without a voter nothing changes; otherwise the screen shows the rated list and exactly that list is written under `'posts'` |
| Home.HomeScreen.FilteredPosts | pages/Home.js:49 | the displayed list is newest first and, under 'todos', a permutation of the loaded posts |
| Home.RepeatedVoteWritesSameList | pages/Home.js:36-37 | when the matching posts already hold the vote, the list written back equals the list already on screen |
| Home.RatingThenReload | pages/Home.js:45-46 | after a vote, reloading from the store gives the rated list |
| CreatePost.RemoveAll | pages/CreatePost.js:119 | every occurrence of the option is removed and every other tag kept, as often as it was |
| CreatePost.RemoveAllConcat | pages/CreatePost.js:119 | removing an option from two joined lists is removing it from each and joining the results, so the kept tags stay in their order |
| CreatePost.ToggleTag | pages/CreatePost.js:117-120 | afterwards the option is selected exactly when it was not before; other tags are untouched; a new option goes at the end |
| CreatePost.ToggleTwiceRestores | pages/CreatePost.js:117-120 | toggling an unselected option twice gives back the original list |
| CreatePost.ToggleTwiceMovesToEnd | pages/CreatePost.js:117-120 | toggling a selected option twice moves it to the end, and a duplicate-free list keeps its contents |
| CreatePost.ToggleKeepsNoDuplicates | pages/CreatePost.js:117-120 | toggling never creates a duplicate tag |
| CreatePost.ValidateForm | pages/CreatePost.js:127-129 | three independent flags: the title is all whitespace, the description is all whitespace, no tag is selected |
| CreatePost.FinalTags | pages/CreatePost.js:139-141 | with "Outro" selected, the free text is the last tag and "Outro" is gone from the rest, other tags kept; otherwise the tags pass through unchanged |
| CreatePost.StreetLine | pages/CreatePost.js:100-108 | a found address gives "street, city" with missing parts empty; no address or a failed lookup gives a fixed message; only a found address contains a comma |
| CreatePost.NewPost | pages/CreatePost.js:142-155 | a new post has 0% / 0%, no votes, the final tags and the form's fields, and its percentages agree with its votes |
| CreatePost.AppendPost | pages/CreatePost.js:137-138 | the new post becomes the last stored post, other keys are untouched, and nothing is written when the stored value does not decode |
| CreatePost.CreateThenLoad | pages/CreatePost.js:156-157 | after a create, the home screen loads the previous list followed by the new post |
| CreatePost.CreatePostScreen.constructor | pages/CreatePost.js:13-22 | the form starts empty, with no tags and no errors |
| CreatePost.CreatePostScreen.ToggleAccessibility | pages/CreatePost.js:117-124 | the tags are toggled; deselecting "Outro" clears its text; a non-empty selection clears the tag error |
| CreatePost.CreatePostScreen.UpdateStreetName | pages/CreatePost.js:98-109 | the street line becomes the formatted geocoding answer |
| CreatePost.CreatePostScreen.HandleCreatePost | pages/CreatePost.js:126-162 | a missing field sets the error flags and leaves the store untouched; otherwise the new post is appended under `'posts'`, or nothing is written when the stored list does not decode |
| Cadastro.ValidateRegistration | pages/Cadastro.js:14-33 | accepted input has an email with '@' and '.' and a password of at least 6 characters equal to its confirmation |
| Cadastro.RegistrationChecksInOrder | pages/Cadastro.js:14-30 | each failure (name, then email, then password length, then confirmation) is reported exactly when the earlier checks pass and its own fails |
| Cadastro.CadastroScreen.constructor | pages/Cadastro.js:7-12 | the form starts with every field empty |
| Cadastro.CadastroScreen.ValidateFields | pages/Cadastro.js:14-33 | returns true exactly when every check passes, and leaves the first failure's message, or '' |
| Cadastro.CadastroScreen.HandleCadastro | pages/Cadastro.js:35-46 | only validated input is stored, as one record under `'user'` replacing any earlier one; otherwise the store is untouched |
| Login.CheckAccount | pages/Login.js:24-37 | the check after validation never reports missing fields; it succeeds only with the stored account's exact email and password, and reports a wrong password only when the email matched |
| Login.IsLoggedIn | pages/Splash.js:10-12 | the start screen goes to the home screen exactly when `'hasLoggedIn'` holds the string "true" |
| Login.DecideLogin | pages/Login.js:21-37 | "fields missing" exactly when a field is blank; success only with the stored account's exact email and password; a wrong password is reported only when the email matched |
| Login.LoginChecksInOrder | pages/Login.js:12-37 | blank fields are reported whatever is stored; an absent account or a different email gives "Email não cadastrado"; an account that does not decode gives "Erro ao fazer login, tente novamente"; then a different password gives "Senha inválida"; success only when the stored account's email and password both match |
| Login.DisplayName | pages/Login.js:39 | the stored name when it is non-empty, and exactly "Usuário" when it is empty; never the empty string |
| Login.SessionAfterLogin | pages/Login.js:38-41 | the four session keys hold the email, the display name, the disability and "true", and every other key is untouched |
| Login.LoginScreen.constructor | pages/Login.js:7-10 | the form starts empty |
| Login.LoginScreen.ValidateFields | pages/Login.js:12-19 | true exactly when both fields hold a non-whitespace character, with the matching message |
| Login.LoginScreen.HandleLogin | pages/Login.js:21-56 | the outcome is the login decision; its message is shown; the session keys are written only on success, and every failure leaves the store untouched |
| Login.WriteSession | pages/Login.js:38-41 | the four sequential writes leave the session store of a successful login |
| Login.RegisterThenLogin | pages/Cadastro.js:38-39 | registering valid input and then logging in with the same email and password succeeds, unless the password is all whitespace |
| Login.WhitespacePasswordCannotLogIn | pages/Login.js:13 | a password of six or more whitespace characters passes registration, but every login with it stops at "fields missing" |
| Login.LoginSignsIn | pages/Splash.js:12 | after a successful login the start screen sees the session as signed in |
| Profile.FillField | pages/Profile.js:17-19 | a field takes the stored value whenever that value is present and non-empty, and otherwise keeps its old text |
| Profile.ProfileSaved | pages/Profile.js:33-34 | after a save, `userName` and `userDisability` hold the new values and every other key, `userEmail` included, is unchanged |
| Profile.ProfileScreen.constructor | pages/Profile.js:6-9 | the form starts with every field empty |
| Profile.ProfileScreen.LoadProfile | pages/Profile.js:12-23 | each field takes its session value only when that value is present and non-empty |
| Profile.ProfileScreen.HandleSaveProfile | pages/Profile.js:27-39 | a blank name is refused with "O nome é obrigatório" and nothing is written; otherwise name and disability are saved |
| Profile.ProfileScreen.HandleLogout | pages/Profile.js:41-51 | logging out changes no stored key, so `hasLoggedIn` survives |
| Profile.ProfileScreen.HandleClearPosts | pages/Profile.js:53-61 | exactly the `'posts'` key is removed |
| Profile.SaveKeepsSession | pages/Profile.js:33-34 | saving the profile keeps the signed-in flag and the stored email |
| Profile.ClearPostsKeepsSession | pages/Profile.js:55 | clearing the posts keeps the session signed in, and the home screen then loads no posts |
| Profile.ProfileAfterLogin | pages/Profile.js:14-19 | after a login, the profile form shows the account's email, display name and disability |

## Left out

- Rating.RoundedPercent: computes exact half-up rounding, not `Math.round` of the double `(p / t) * 100`. The two differ where the double falls just below a half, e.g. 29 of 200 gives 14.4999… and rounds to 14 in the app, 15 here.
- Storage failures: the store is in memory and never fails. So the catch branches of `getItem`, `setItem` and `removeItem` are absent: "Erro ao cadastrar, tente novamente", "Erro ao salvar alterações", "Erro ao limpar posts", "Erro ao carregar perfil" (a failed read in `loadProfile`, pages/Profile.js:14-21), "Erro ao criar post" for a failed write, and "Erro ao fazer login, tente novamente" for a failed session write after a login (pages/Login.js:38-41, caught at pages/Login.js:52-54). Decode failures are modelled; the login reports that message only for an account that does not decode.
- JSON text: `JSON.stringify` and `JSON.parse` are replaced by the `Blob` shapes. A string that `JSON.parse` would accept as some other value is not distinguished from one it rejects.
- Session reads: a structured value (post list or account) under a session key reads as absent. The app never writes one there.
- Stored account fields are always strings, since registration is the only writer. So `user.name || 'Usuário'` and `user.disability || ''` are modelled on the empty string; missing fields are not representable.
- String lengths: `password.length` counts UTF-16 code units, while a Dafny `char` is a Unicode scalar value. A character outside the Basic Multilingual Plane counts 1 here and 2 in the app.
- Time: `Date.now()` ids and ISO date strings are parameters and integer timestamps. Date parsing, invalid dates (a `NaN` comparison in the sort) and `toLocaleDateString` are not modelled.
- Floating-point coordinates are carried as `real` and never computed with.
- React and navigation: hooks, state setters typed into the forms (including the error flags cleared while typing), navigation, toasts and alerts, JSX and styles.
- Expo collaborators: location permissions and position, the image picker, the map, and the reverse-geocoding call itself (only the formatting of its answer is modelled).
- Concurrency: overlapping asynchronous writes are not modelled. Each handler runs to completion.
- pages/Splash.js timers and navigation (only its `hasLoggedIn === 'true'` test is modelled, as `Login.IsLoggedIn`); App.js, pages/Onboarding.js and pages/PostDetail.js (navigation and rendering only).
- Seed posts and comment threads: no code for them exists in the app.
