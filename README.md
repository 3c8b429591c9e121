# CODEOWNERS engine, modelled in Dafny

This project models the core of a GitHub Action that reads a repository's
CODEOWNERS file and reports who owns a list of changed files. The core has
four parts:

- **Pattern compiler** (`parsePattern`). It turns a gitignore-style pattern
  into an anchored regular expression. `***` and the empty pattern are
  errors. `/` matches only the empty path. A leading slash anchors the
  pattern at the root. A single segment matches at any depth. A trailing
  slash means `/**`. `*`, `?` and `**` are wildcards, and `\` escapes the
  next character.
- **Line parser** (`parseLine`). It cuts an inline comment at the first
  unescaped `#` and trims what is left. It then splits the line at runs of
  unescaped whitespace into a pattern and its owners, and compiles the
  pattern.
- **File parser** (`parseFile`). It splits the file into lines at `\n` or
  `\r\n` and numbers them from 1. It skips lines that the API flagged, blank
  lines and comment lines. It reports each line whose pattern does not
  compile. It returns the rules with the line written last first.
- **Resolver** (`filenameMatch`, `findMatchingCodeOwners`). A rule covers a
  path through a string fast path when its pattern is a rooted literal, and
  through its regular expression otherwise. For each changed path, the first
  covering rule wins. Its owners are sorted in place, and they are added
  once each to the individual owners and, as a list, to the owner groups.

A compiled expression is a list of tokens: literal characters, `[^/]`,
`[^/]*`, `[^/]+`, `.+`, `.*`, `(?:.+/)?`, `(?:/.+)?` and `(?:/.*)?`. The
model gives them two meanings:

- `Regex.Matches`, a backtracking matcher the verifier can evaluate on
  concrete strings;
- `Regex.InLanguage`, a declarative meaning based on splitting the string.

`Regex.MatchesIsInLanguage` proves that the two agree. `Regex.Source`
renders the tokens as the expression's source text.

Each core file is modelled in its own form:

- The compiler is the function `ParsePattern.Compile`. The method
  `ParsePattern.ParsePattern` follows the source's segment list, its
  `needSlash` and `escape` flags and its output array, and is proved to
  compute `Compile`.
- `parseLine` is a function on values.
- `parseFile` is a loop method, proved against the function `ScanLines`. It
  builds `CodeOwnerRule` objects, whose `owners` field is mutable.
- `findMatchingCodeOwners` is a method that sorts the `owners` of each
  winning rule in place. It is proved to return what the function
  `Resolve` gives for the rules as they were on entry, and to leave every
  other rule as it was.

Modules:

- `results.dfy`: `Results` (`Result` and `Option`);
- `text.dfy`: `Text` (split, join, trim, reverse);
- `regex.dfy`: `Regex` (tokens, the two matchers, the source text);
- `parse_pattern.dfy`: `ParsePattern`;
- `pattern_properties.dfy`: `PatternProperties` (what compiled patterns
  match, for all patterns of a shape);
- `pattern_vectors.dfy`: `PatternVectors` (the pattern test suite);
- `parse_line.dfy`: `LineParser`;
- `line_vectors.dfy`: `LineVectors` (the line-parser test suite);
- `parse_file.dfy`: `FileParser`;
- `sorting.dfy`: `Sorting` (`Array.prototype.sort` on strings);
- `filename_match.dfy`: `Resolver`;
- `file_vectors.dfy`: `FileVectors` (the file-parser test suite: the
  space, whitespace, content, blank-and-comment, flagged-line and
  invalid-line cases);
- `resolver_vectors.dfy`: `ResolverVectors` (resolution laws, the
  resolver test cases, and one case on two rules of the GitHub example
  file);
- `readme_vectors.dfy`: `ReadmeVectors` (the README example of both test
  suites: the file parsed into its six rules, their compiled expressions,
  and the six changed paths resolved against them).

A few behaviours of the code are easy to misread:

- The groups come out sorted, because `rule.owners.sort()` sorts the rule's
  own array before it is serialised.
- The individual owners of a group are added in sorted order.
- A winning rule with no owners adds the empty group `[]`.
- For the pattern `/`, the compiled expression matches only the empty path.
  `filenameMatch` never uses that expression, because `/` is a rooted
  literal. The fast path also accepts every path that starts with `/`
  (`Resolver.RootPatternDiverges`). For every other rooted literal pattern,
  the fast path and the compiled expression agree
  (`Resolver.FastPathAgrees`).

## Model

| member | source | states |
|---|---|---|
| Regex.MatchesIsInLanguage | src/codeowners/parse-pattern.ts:112-113 | the backtracking matcher accepts a string exactly when the string cuts into one piece per token, each piece in its token's language |
| Regex.BodyAppend | src/codeowners/parse-pattern.ts:112-113 | the source text of a concatenation of tokens is the source texts one after the other |
| Regex.UnescapeChars | src/codeowners/parse-pattern.ts:95-98 | literal characters are rendered with their metacharacters and slashes escaped, and reading the escapes back gives the original string |
| Regex.BodyPlain | src/codeowners/parse-pattern.ts:95-98 | a string with no metacharacter and no `/` renders as itself |
| Regex.AnyDepthBody | src/codeowners/parse-pattern.ts:46-49 | tokens between a leading `(?:.+/)?` and a trailing `(?:/.*)?` render between those two fragments |
| ParsePattern.Compile | src/codeowners/parse-pattern.ts:2-114 | the compiler fails exactly when the pattern holds `***` or is empty; `***` is reported whenever present, before the empty check; `/` compiles to the empty expression `^$` |
| ParsePattern.ParsePattern | src/codeowners/parse-pattern.ts:2-114 | the compiler as written (edge cases, segment rewriting, the `forEach` with `needSlash`) returns exactly `Compile`, errors included |
| ParsePattern.EmitSegments | src/codeowners/parse-pattern.ts:35-110 | the loop over the rewritten segments, starting with `needSlash` false, outputs the tokens of every segment in order |
| ParsePattern.EmitSegment | src/codeowners/parse-pattern.ts:41-109 | one segment's `switch` appends that segment's tokens (the four `**` cases, `*`, ordinary) and leaves `needSlash` as the segment kind decides |
| ParsePattern.AppendSegmentChars | src/codeowners/parse-pattern.ts:74-100 | the character loop appends `[^/]*` for `*`, `[^/]` for `?`, the next character literally after `\`, and every other character literally |
| PatternProperties.EdgeCases | src/codeowners/parse-pattern.ts:4-11 | `***` anywhere gives the three-asterisk error, the empty pattern the empty-pattern error, and `/` matches only the empty path |
| PatternProperties.CompileSingleSegment | src/codeowners/parse-pattern.ts:19-27 | a single segment without a slash, other than `*` and `**`, gets `**` in front: any leading directories, the segment, any descendants |
| PatternProperties.UnanchoredName | src/codeowners/parse-pattern.ts:19-27 | a plain name matches a path exactly when the name is one whole segment of the path, at any depth |
| PatternProperties.UnanchoredNameSource | src/codeowners/parse-pattern.ts:95-105 | a plain name renders as `(?:.+/)?`, then the name with its metacharacters escaped, then `(?:/.*)?`; the escaped name reads back as the name |
| PatternProperties.AnchoredAtRoot | src/codeowners/parse-pattern.ts:15-17 | a pattern with a leading slash and a plain first segment matches only paths whose first segment is that segment |
| PatternProperties.TrailingSlashIsGlobstar | src/codeowners/parse-pattern.ts:30-33 | for a pattern that holds a slash, a trailing `/` compiles to the same expression as a trailing `/**` |
| PatternProperties.MatchesDescendants | src/codeowners/parse-pattern.ts:102-105 | when the last segment is ordinary, a match on a path is also a match on every path below it |
| PatternProperties.ChildrenOnly | src/codeowners/parse-pattern.ts:60-67 | `name/*` matches exactly the direct children of `name`: one non-empty segment without a slash after `name/` |
| PatternProperties.EscapedName | src/codeowners/parse-pattern.ts:74-81 | a name with every character escaped is matched literally, as one whole segment at any depth |
| PatternProperties.MiddleGlobstar | src/codeowners/parse-pattern.ts:53-57 | `a/**/b` matches `a/b` and `a/m/b` for every non-empty middle part `m`, and matches a path exactly when the path is `a`, then zero or more directories, then `/b`, then nothing or a descendant |
| PatternProperties.OneCharWildcard | src/codeowners/parse-pattern.ts:91-94 | a plain name with one `?` matches a path exactly when some whole segment of it, at any depth, is the text before the `?`, one character other than `/`, and the text after |
| PatternProperties.StarWildcard | src/codeowners/parse-pattern.ts:87-90 | a plain name with one `*` matches a path exactly when some whole segment of it, at any depth, is the text before the `*`, any run of characters other than `/`, and the text after |
| PatternVectors.SingleSegmentPatternCompiled | __tests__/parse-pattern.test.ts:5-22 | `foo` compiles to `^(?:.+/)?foo(?:/.*)?$` |
| PatternVectors.SingleSegmentPatternPaths | __tests__/parse-pattern.test.ts:5-22 | each path of "single-segment pattern" is matched or rejected as the case expects |
| PatternVectors.SingleSegmentPatternWithLeadingSlashCompiled | __tests__/parse-pattern.test.ts:24-41 | `/foo` compiles to `^foo(?:/.*)?$` |
| PatternVectors.SingleSegmentPatternWithLeadingSlashPaths | __tests__/parse-pattern.test.ts:24-41 | each path of "single-segment pattern with leading slash" is matched or rejected as the case expects |
| PatternVectors.SingleSegmentPatternWithTrailingSlashCompiled | __tests__/parse-pattern.test.ts:43-60 | `foo/` compiles to `^(?:.+/)?foo/.*$` |
| PatternVectors.SingleSegmentPatternWithTrailingSlashPaths | __tests__/parse-pattern.test.ts:43-60 | each path of "single-segment pattern with trailing slash" is matched or rejected as the case expects |
| PatternVectors.SingleSegmentPatternWithLeadingAndTrailingSlashCompiled | __tests__/parse-pattern.test.ts:62-79 | `/foo/` compiles to `^foo/.*$` |
| PatternVectors.SingleSegmentPatternWithLeadingAndTrailingSlashPaths | __tests__/parse-pattern.test.ts:62-79 | each path of "single-segment pattern with leading and trailing slash" is matched or rejected as the case expects |
| PatternVectors.MultiSegmentImplicitlyLeftAnchoredPatternCompiled | __tests__/parse-pattern.test.ts:81-96 | `foo/bar` compiles to `^foo/bar(?:/.*)?$` |
| PatternVectors.MultiSegmentImplicitlyLeftAnchoredPatternPaths | __tests__/parse-pattern.test.ts:81-96 | each path of "multi-segment (implicitly left-anchored) pattern" is matched or rejected as the case expects |
| PatternVectors.MultiSegmentPatternWithLeadingSlashCompiled | __tests__/parse-pattern.test.ts:98-113 | `/foo/bar` compiles to `^foo/bar(?:/.*)?$` |
| PatternVectors.MultiSegmentPatternWithLeadingSlashPaths | __tests__/parse-pattern.test.ts:98-113 | each path of "multi-segment pattern with leading slash" is matched or rejected as the case expects |
| PatternVectors.MultiSegmentPatternWithTrailingSlashCompiled | __tests__/parse-pattern.test.ts:115-130 | `foo/bar/` compiles to `^foo/bar/.*$` |
| PatternVectors.MultiSegmentPatternWithTrailingSlashPaths | __tests__/parse-pattern.test.ts:115-130 | each path of "multi-segment pattern with trailing slash" is matched or rejected as the case expects |
| PatternVectors.MultiSegmentPatternWithLeadingAndTrailingSlashCompiled | __tests__/parse-pattern.test.ts:132-148 | `/foo/bar/` compiles to `^foo/bar/.*$` |
| PatternVectors.MultiSegmentPatternWithLeadingAndTrailingSlashPaths | __tests__/parse-pattern.test.ts:132-148 | each path of "multi-segment pattern with leading and trailing slash" is matched or rejected as the case expects |
| PatternVectors.SingleSegmentLoneWildcardCompiled | __tests__/parse-pattern.test.ts:150-166 | `*` compiles to `^(?:.+/)?[^/]+$` |
| PatternVectors.SingleSegmentLoneWildcardPaths | __tests__/parse-pattern.test.ts:150-166 | each path of "single segment lone wildcard" is matched or rejected as the case expects |
| PatternVectors.SingleSegmentPatternWithWildcardCompiled | __tests__/parse-pattern.test.ts:168-185 | `f*` compiles to `^(?:.+/)?f[^/]*(?:/.*)?$` |
| PatternVectors.SingleSegmentPatternWithWildcardPaths | __tests__/parse-pattern.test.ts:168-185 | each path of "single segment pattern with wildcard" is matched or rejected as the case expects |
| PatternVectors.SingleSegmentPatternWithLeadingSlashAndLoneWildcardCompiled | __tests__/parse-pattern.test.ts:187-201 | `/*` compiles to `^[^/]+$` |
| PatternVectors.SingleSegmentPatternWithLeadingSlashAndLoneWildcardPaths | __tests__/parse-pattern.test.ts:187-201 | each path of "single segment pattern with leading slash and lone wildcard" is matched or rejected as the case expects |
| PatternVectors.SingleSegmentPatternWithLeadingSlashAndWildcardCompiled | __tests__/parse-pattern.test.ts:203-220 | `/f*` compiles to `^f[^/]*(?:/.*)?$` |
| PatternVectors.SingleSegmentPatternWithLeadingSlashAndWildcardPaths | __tests__/parse-pattern.test.ts:203-220 | each path of "single segment pattern with leading slash and wildcard" is matched or rejected as the case expects |
| PatternVectors.SingleSegmentPatternWithTrailingSlashAndWildcardCompiled | __tests__/parse-pattern.test.ts:222-238 | `f*/` compiles to `^(?:.+/)?f[^/]*/.*$` |
| PatternVectors.SingleSegmentPatternWithTrailingSlashAndWildcardPaths | __tests__/parse-pattern.test.ts:222-238 | each path of "single segment pattern with trailing slash and wildcard" is matched or rejected as the case expects |
| PatternVectors.SingleSegmentPatternWithLeadingAndTrailingSlashAndLoneWildcardCompiled | __tests__/parse-pattern.test.ts:240-254 | `/*/` compiles to `^[^/]+/.*$` |
| PatternVectors.SingleSegmentPatternWithLeadingAndTrailingSlashAndLoneWildcardPaths | __tests__/parse-pattern.test.ts:240-254 | each path of "single segment pattern with leading and trailing slash and lone wildcard" is matched or rejected as the case expects |
| PatternVectors.SingleSegmentPatternWithLeadingAndTrailingSlashAndWildcardCompiled | __tests__/parse-pattern.test.ts:256-272 | `/f*/` compiles to `^f[^/]*/.*$` |
| PatternVectors.SingleSegmentPatternWithLeadingAndTrailingSlashAndWildcardPaths | __tests__/parse-pattern.test.ts:256-272 | each path of "single segment pattern with leading and trailing slash and wildcard" is matched or rejected as the case expects |
| PatternVectors.SingleSegmentPatternWithEscapedWildcardCompiled | __tests__/parse-pattern.test.ts:274-286 | `f\*o` compiles to `^(?:.+/)?f\*o(?:/.*)?$` |
| PatternVectors.SingleSegmentPatternWithEscapedWildcardPaths | __tests__/parse-pattern.test.ts:274-286 | each path of "single segment pattern with escaped wildcard" is matched or rejected as the case expects |
| PatternVectors.PatternWithTrailingWildcardSegmentCompiled | __tests__/parse-pattern.test.ts:288-305 | `foo/*` compiles to `^foo/[^/]+$` |
| PatternVectors.PatternWithTrailingWildcardSegmentPaths | __tests__/parse-pattern.test.ts:288-305 | each path of "pattern with trailing wildcard segment" is matched or rejected as the case expects |
| PatternVectors.MultiSegmentPatternWithWildcardCompiled | __tests__/parse-pattern.test.ts:307-322 | `foo/*.txt` compiles to `^foo/[^/]*\.txt(?:/.*)?$` |
| PatternVectors.MultiSegmentPatternWithWildcardPaths | __tests__/parse-pattern.test.ts:307-322 | each path of "multi-segment pattern with wildcard" is matched or rejected as the case expects |
| PatternVectors.MultiSegmentPatternWithLoneWildcardCompiled | __tests__/parse-pattern.test.ts:324-339 | `foo/*/baz` compiles to `^foo/[^/]+/baz(?:/.*)?$` |
| PatternVectors.MultiSegmentPatternWithLoneWildcardPaths | __tests__/parse-pattern.test.ts:324-339 | each path of "multi-segment pattern with lone wildcard" is matched or rejected as the case expects |
| PatternVectors.SingleSegmentPatternWithSingleCharacterWildcardCompiled | __tests__/parse-pattern.test.ts:341-354 | `f?o` compiles to `^(?:.+/)?f[^/]o(?:/.*)?$` |
| PatternVectors.SingleSegmentPatternWithSingleCharacterWildcardPaths | __tests__/parse-pattern.test.ts:341-354 | each path of "single segment pattern with single-character wildcard" is matched or rejected as the case expects |
| PatternVectors.SingleSegmentPatternWithEscapedSingleCharacterWildcardCompiled | __tests__/parse-pattern.test.ts:356-368 | `f\?o` compiles to `^(?:.+/)?f\?o(?:/.*)?$` |
| PatternVectors.SingleSegmentPatternWithEscapedSingleCharacterWildcardPaths | __tests__/parse-pattern.test.ts:356-368 | each path of "single segment pattern with escaped single-character wildcard" is matched or rejected as the case expects |
| PatternVectors.LeadingDoubleAsteriskWildcardCompiled | __tests__/parse-pattern.test.ts:370-385 | `**/foo/bar` compiles to `^(?:.+/)?foo/bar(?:/.*)?$` |
| PatternVectors.LeadingDoubleAsteriskWildcardPaths | __tests__/parse-pattern.test.ts:370-385 | each path of "leading double-asterisk wildcard" is matched or rejected as the case expects |
| PatternVectors.LeadingDoubleAsteriskWildcardWithRegularWildcardCompiled | __tests__/parse-pattern.test.ts:387-402 | `**/*bar*` compiles to `^(?:.+/)?[^/]*bar[^/]*(?:/.*)?$` |
| PatternVectors.LeadingDoubleAsteriskWildcardWithRegularWildcardPaths | __tests__/parse-pattern.test.ts:387-402 | each path of "leading double-asterisk wildcard with regular wildcard" is matched or rejected as the case expects |
| PatternVectors.TrailingDoubleAsteriskWildcardCompiled | __tests__/parse-pattern.test.ts:404-419 | `foo/bar/**` compiles to `^foo/bar/.*$` |
| PatternVectors.TrailingDoubleAsteriskWildcardPaths | __tests__/parse-pattern.test.ts:404-419 | each path of "trailing double-asterisk wildcard" is matched or rejected as the case expects |
| PatternVectors.MiddleDoubleAsteriskWildcardCompiled | __tests__/parse-pattern.test.ts:421-438 | `foo/**/bar` compiles to `^foo(?:/.+)?/bar(?:/.*)?$` |
| PatternVectors.MiddleDoubleAsteriskWildcardPaths | __tests__/parse-pattern.test.ts:421-438 | each path of "middle double-asterisk wildcard" is matched or rejected as the case expects |
| PatternVectors.MiddleDoubleAsteriskWildcardWithTrailingSlashCompiled | __tests__/parse-pattern.test.ts:440-454 | `foo/**/` compiles to `^foo(?:/.+)?/.*$` |
| PatternVectors.MiddleDoubleAsteriskWildcardWithTrailingSlashPaths | __tests__/parse-pattern.test.ts:440-454 | each path of "middle double-asterisk wildcard with trailing slash" is matched or rejected as the case expects |
| PatternVectors.MiddleDoubleAsteriskWildcardWithTrailingWildcardCompiled | __tests__/parse-pattern.test.ts:456-472 | `foo/**/bar/b*` compiles to `^foo(?:/.+)?/bar/b[^/]*(?:/.*)?$` |
| PatternVectors.MiddleDoubleAsteriskWildcardWithTrailingWildcardPaths | __tests__/parse-pattern.test.ts:456-472 | each path of "middle double-asterisk wildcard with trailing wildcard" is matched or rejected as the case expects |
| LineParser.FindCommentFirst | src/codeowners/parse-line.ts:5-8 | the search finds the leftmost `#` not preceded by a backslash, and finds nothing exactly when there is none |
| LineParser.StripCommentCuts | src/codeowners/parse-line.ts:8-10 | with an unescaped `#`, the line becomes the trimmed text before the first one |
| LineParser.StripCommentAt | src/codeowners/parse-line.ts:8-10 | a line written as comment-free text, an unescaped `#` and anything after becomes that text, trimmed |
| LineParser.StripCommentKeeps | src/codeowners/parse-line.ts:8-10 | a line whose every `#` is escaped is left as it is, so `\#` stays in the pattern |
| LineParser.StripCommentFree | src/codeowners/parse-line.ts:8-10 | no unescaped `#` is left after the cut |
| LineParser.FieldsSplit | src/codeowners/parse-line.ts:12 | the split at unescaped whitespace yields pieces without unescaped whitespace, separated by whitespace runs, which woven back give the text |
| LineParser.FieldsOfWeave | src/codeowners/parse-line.ts:12 | conversely, pieces without unescaped whitespace joined by whitespace runs split back into those pieces |
| LineParser.UnbrokenIsOnePiece | src/codeowners/parse-line.ts:12 | text without unescaped whitespace splits into itself alone |
| LineParser.ParseLine | src/codeowners/parse-line.ts:4-22 | a parsed rule keeps the line number and its matcher is the compiled pattern; the line fails exactly when its first field does not compile, with that field's error |
| LineParser.ParseLinePieces | src/codeowners/parse-line.ts:12-21 | the pattern and the owners, in order, are the pieces of the comment-free line between unescaped whitespace runs |
| LineParser.ParseLineNoOwners | src/codeowners/parse-line.ts:12 | a comment-free line without unescaped whitespace is all pattern and has no owners |
| LineParser.ParseLineFails | src/codeowners/parse-line.ts:14 | a line is rejected exactly when its pattern holds `***` or is empty, and with the three-asterisk error exactly when it holds `***` |
| LineParser.ParseLineGives | src/codeowners/parse-line.ts:12-21 | a line whose fields are a compilable pattern and some owners gives the rule with that pattern, those owners and the line number |
| LineVectors.EdgeCases | __tests__/parse-line.test.ts:4-12 | `hello/wo rld` gives pattern `hello/wo`, owners `rld`, line 0 |
| LineVectors.ShouldParseASimplePatternWithoutOwners | __tests__/parse-line.test.ts:14-22 | the case's line gives its pattern and no owners |
| LineVectors.ShouldParseAPatternWithOwners | __tests__/parse-line.test.ts:24-32 | the case's line gives its pattern and its two owners |
| LineVectors.ShouldParseAPatternWithOwnersAndMultipleSpaces | __tests__/parse-line.test.ts:34-42 | runs of several spaces separate fields like one space |
| LineVectors.ShouldIgnoreInlineComments | __tests__/parse-line.test.ts:44-52 | the text from the unescaped `#` on is dropped, leaving `pattern` and `@owner1` |
| LineVectors.ShouldHandleEscapedSpacesCorrectly | __tests__/parse-line.test.ts:54-62 | an escaped space stays inside the pattern |
| LineVectors.ShouldHandleBasicPathCorrectly | __tests__/parse-line.test.ts:64-72 | `/a/path @owner1` gives that pattern and owner |
| LineVectors.ShouldHandleEscapedHashCorrectly | __tests__/parse-line.test.ts:74-82 | an escaped `#` does not start a comment and stays in the pattern |
| FileParser.CodeOwnerRule.constructor | src/codeowners/parse-file.ts:4-9 | a new rule record holds the pattern, matcher, line number and owners it was given |
| FileParser.SplitLinesOne | src/codeowners/parse-file.ts:18 | text without `\n` is one line |
| FileParser.SplitLinesCons | src/codeowners/parse-file.ts:18 | a line ended by `\n` or `\r\n` comes first, without its terminator, followed by the lines of the rest |
| FileParser.SplitLinesNoLF | src/codeowners/parse-file.ts:18 | no line holds a `\n` |
| FileParser.DecimalRoundTrip | src/codeowners/parse-file.ts:49 | a line number renders as a non-empty string of decimal digits that reads back as the number |
| FileParser.ErrorTextDiffers | src/codeowners/parse-file.ts:49 | the error texts of two different line numbers differ |
| FileParser.ParseFile | src/codeowners/parse-file.ts:13-56 | the loop returns fresh, distinct rule records holding `FileRules` (the scan's rules reversed) and reports the texts of `FileReports` in order |
| FileParser.ScanRules | src/codeowners/parse-file.ts:21-52 | every scanned rule is what `parseLine` makes of its trimmed, unskipped line; line numbers strictly increase; rules and reports together number at most the lines |
| FileParser.ScanKeeps | src/codeowners/parse-file.ts:44-46 | every unskipped line that `parseLine` accepts gives a rule with its number |
| FileParser.ScanReports | src/codeowners/parse-file.ts:44-51 | a line is reported exactly when it is not skipped and its pattern does not compile |
| FileParser.FileRulesReversed | src/codeowners/parse-file.ts:54-55 | the returned rules have strictly decreasing line numbers, none from a flagged, blank or comment line, and number at most the lines |
| FileParser.FileRulesComplete | src/codeowners/parse-file.ts:25-46 | some rule carries line number `n` exactly when line `n` exists, is not skipped and `parseLine` accepts it |
| FileParser.FileReportsComplete | src/codeowners/parse-file.ts:44-51 | line `n` is reported exactly when it is not skipped and fails to compile, and no line both gives a rule and is reported |
| Sorting.LeTotal | src/filename-match.ts:62 | any two strings are ordered one way or the other by the comparison `sort()` uses |
| Sorting.LeAntisymmetric | src/filename-match.ts:62 | two strings ordered both ways are equal |
| Sorting.LeTransitive | src/filename-match.ts:62 | the comparison is transitive |
| Sorting.SortOwnersCorrect | src/filename-match.ts:62 | `owners.sort()` returns the owners in ascending order, as a permutation of the input |
| Sorting.SortOwnersSorted | src/filename-match.ts:62 | sorting a sorted list leaves it unchanged |
| Sorting.SortOwnersIdempotent | src/filename-match.ts:62 | sorting twice is sorting once |
| Sorting.SortedUnique | src/filename-match.ts:62 | two sorted lists holding the same elements equally often are equal |
| Sorting.SortOwnersSameIff | src/filename-match.ts:62 | two owner lists sort to the same list exactly when they hold the same owners equally often |
| Resolver.HasWildcardIff | src/filename-match.ts:9 | `/[*?\\]/.test` holds exactly when some character is `*`, `?` or a backslash |
| Resolver.IsRootedLiteralIff | src/filename-match.ts:8-10 | a pattern is a rooted literal exactly when it starts with `/` and holds no `*`, `?` or backslash |
| Resolver.MatchRootedLiteralMeaning | src/filename-match.ts:12-37 | without its leading `/`, a pattern ending in `/` accepts the paths it prefixes; any other accepts itself and the paths that start with it followed by `/` |
| Resolver.FastPathAgrees | src/filename-match.ts:39-45 | for every rooted literal pattern other than `/`, the fast path accepts exactly the paths the compiled expression matches |
| Resolver.RootPatternDiverges | src/filename-match.ts:39-45 | `/` is a rooted literal; its fast path accepts the empty path and every path starting with `/`, while its compiled expression matches only the empty path |
| Resolver.FilenameMatchCompiled | src/filename-match.ts:39-45 | for a rule the line parser built, other than `/`, `filenameMatch` is the compiled expression's test |
| Resolver.MatchIgnoresOwners | src/filename-match.ts:39-45 | whether a rule covers a path does not depend on its owners |
| Resolver.FirstMatch | src/filename-match.ts:56-66 | the chosen rule covers the path and no earlier rule does; there is none exactly when no rule covers the path |
| Resolver.FindRule | src/filename-match.ts:56-66 | the inner loop over the rule records stops at the first record that covers the path |
| Resolver.AddOne | src/filename-match.ts:63 | `Set.add` keeps insertion order: the set gains the element at the end unless it is present, and never holds a duplicate |
| Resolver.AddAll | src/filename-match.ts:63 | adding a list element by element appends, after what was there, exactly the list's elements not yet present, each once, in the order of their first occurrence in the list |
| Resolver.AddOwners | src/filename-match.ts:63 | the `forEach` adding a rule's owners to the individual owners computes `AddAll` |
| Resolver.MatchesStable | src/filename-match.ts:62 | sorting rule owners in place leaves the first covering rule of every path unchanged |
| Resolver.ResolvePath | src/filename-match.ts:55-66 | one turn of the outer loop extends both sets as `Resolve` does for one more path, and sorts the owners of the rule that wins it |
| Resolver.FindMatchingCodeOwners | src/filename-match.ts:47-74 | the result is `Resolve` of the paths over the rules as they were on entry; every record that won a path has its owners sorted, and every other record is unchanged |
| Resolver.ResolveNoDup | src/filename-match.ts:52-53 | neither the individual owners nor the groups hold an element twice |
| Resolver.ResolveIndividual | src/filename-match.ts:63 | an owner is listed exactly when it is an owner of a rule that is the first to cover some path |
| Resolver.ResolveGrouped | src/filename-match.ts:62 | a group is listed exactly when it is the sorted owners of a rule that is the first to cover some path |
| Resolver.ResolveGroupsSorted | src/filename-match.ts:62 | every group is sorted and holds exactly the owners of a winning rule |
| Resolver.IndividualFromGroups | src/filename-match.ts:62-63 | the individual owners are exactly the owners that appear in some group |
| Resolver.ResolvePrefix | src/filename-match.ts:55-67 | later paths only append: the results for the first paths are prefixes of the results for all |
| Resolver.ResolveUncovered | src/filename-match.ts:56-66 | a path that no rule covers adds nothing |
| Resolver.LaterLineWins | src/codeowners/parse-file.ts:54-55 | with the rules of a file, the rule that wins a path has the highest line number of all rules that cover it |
| ResolverVectors.ResolveNoRules | src/filename-match.ts:47-74 | with no rules, both results are empty |
| ResolverVectors.ResolveSortedOwnersOnly | src/filename-match.ts:62 | rule lists with the same matchers whose owners sort alike resolve alike |
| ResolverVectors.ResolveAgain | src/filename-match.ts:62 | resolving again after the in-place sort gives the same result |
| ResolverVectors.RootedLiteralFolder | __tests__/filename-match.test.ts:9-11 | `/rooted/path` is a rooted literal |
| ResolverVectors.RootedLiteralFile | __tests__/filename-match.test.ts:13-15 | `/rooted/path/file.txt` is a rooted literal |
| ResolverVectors.RootedLiteralWildcards | __tests__/filename-match.test.ts:17-27 | patterns holding `*`, `?` or a backslash are not rooted literals |
| ResolverVectors.RootedLiteralUnrooted | __tests__/filename-match.test.ts:29-35 | `relative/path` and the empty pattern are not rooted literals |
| ResolverVectors.MatchRootedLiteralCases | __tests__/filename-match.test.ts:39-76 | the seven fast-path cases: exact match, directory prefix, subpaths accepted; shorter path, other prefix, longer last segment rejected |
| ResolverVectors.SimpleRule | __tests__/filename-match.test.ts:151-168 | one covering rule with owner `@owner1` gives that owner and the group `[@owner1]` |
| ResolverVectors.SingleRule | __tests__/filename-match.test.ts:170-187 | the same for the rule `src/utils/*.ts` |
| ResolverVectors.DifferentRules | __tests__/filename-match.test.ts:189-218 | two paths won by two rules give owners `@owner1 @owner3 @owner2` and the two sorted groups |
| ResolverVectors.SameOwnersOneGroup | __tests__/filename-match.test.ts:220-246 | two rules with the same owners in different orders give one sorted group |
| ResolverVectors.DuplicateOwners | __tests__/filename-match.test.ts:248-271 | two covering rules with the same owner give that owner once and one group |
| ResolverVectors.NoRuleMatches | __tests__/filename-match.test.ts:273-290 | an uncovered path gives no owners and no groups |
| ResolverVectors.FirstRuleWins | __tests__/filename-match.test.ts:292-315 | of two covering rules only the first contributes owners |
| FileVectors.ShouldParseSpaceCorrectly | __tests__/parse-file.test.ts:57-69 | the one-line file `hello/wo\ rld @owner1` gives one rule, line 1, pattern `hello/wo\ rld`, owner `@owner1`, and no report |
| FileVectors.ShouldParseLeadingTrailingAndMiddleWhitespaceCorrectly | __tests__/parse-file.test.ts:71-83 | spaces and tabs around the line and between its fields only separate: one rule, line 1, pattern `*.md`, owners `@owner1 @owner2` |
| FileVectors.ShouldParseValidFileContentIntoARuleset | __tests__/parse-file.test.ts:245-268 | a comment and two rule lines give the two rules, last line first, with their line numbers 5 and 3, and no report |
| FileVectors.ShouldSkipEmptyLinesAndComments | __tests__/parse-file.test.ts:270-279 | blank lines and comments give no rule and no report |
| FileVectors.ShouldSkipLinesSpecifiedInTheErrorsArray | __tests__/parse-file.test.ts:281-309 | with line 3 flagged, the flagged line is skipped: the rules of lines 4, 2 and 1 in that order, and no report |
| FileVectors.ShouldThrowAnErrorForInvalidLines | __tests__/parse-file.test.ts:311-330 | the `***` line 2 gives no rule and the report `Line 2: ` followed by the three-asterisk message; lines 3 and 1 still give their rules |
| ReadmeVectors.PackageCompiled | __tests__/parse-file.test.ts:18-23 | `/package.json` compiles to the tokens of `^package\.json(?:\/.*)?$` |
| ReadmeVectors.TestsUnitCompiled | __tests__/parse-file.test.ts:24-29 | `/tests/unit/*` compiles to the tokens of `^tests\/unit\/[^/]+$` |
| ReadmeVectors.DocsCompiled | __tests__/parse-file.test.ts:30-35 | `/docs/*` compiles to the tokens of `^docs\/[^/]+$` |
| ReadmeVectors.SrcUtilsCompiled | __tests__/parse-file.test.ts:36-41 | `/src/utils/*` compiles to the tokens of `^src\/utils\/[^/]+$` |
| ReadmeVectors.SrcCompiled | __tests__/parse-file.test.ts:42-47 | `/src/*` compiles to the tokens of `^src\/[^/]+$` |
| ReadmeVectors.AllJsCompiled | __tests__/parse-file.test.ts:48-53 | `/**/*.js` compiles to the tokens of `^(?:.+\/)?[^/]*\.js(?:\/.*)?$` |
| ReadmeVectors.ShouldParseTheReadmeExample | __tests__/parse-file.test.ts:6-55 | the README file gives its six rules, last line first, with their patterns, compiled expressions, line numbers 7 to 2 and owners, and no report |
| ReadmeVectors.ShouldResolveTheReadmeExample | __tests__/filename-match.test.ts:80-149 | the six changed paths against those rules give the five groups and seven individual owners the case expects, in its order; `docs/setup/config.md` is covered by no rule and `/src/*` wins `src/file.js` over `/**/*.js` |
| ResolverVectors.EmptyOwnersOverride | __tests__/parse-file.test.ts:147-181 | a later `/apps/github` with no owners wins `apps/github/x`, giving the empty group and no owner, while `/apps/` still wins `apps/web/x` |

## Left out

- I/O, the GitHub API and the action's entry point (`src/main.ts`, `src/github.service.ts`) are not part of this model. The API's flagged line numbers are a parameter of `ParseFile`.
- `core.setOutput('error', …)` is modelled as the sequence of texts it receives. The action output itself, which keeps only the last text, is not modelled.
- `debug` logging in `findMatchingCodeOwners` is not modelled; it changes no state.
- The general JavaScript regular-expression engine is not modelled. Compiled patterns are token lists with their own matcher. The resolver tests' hand-written expressions, such as `/src\/utils\/.*\.ts/`, are left abstract: those cases state which rule covers which path as a requirement.
- Regex.Matches: `.` is modelled as any character; the fact that JavaScript's `.` does not match line terminators is left out.
- Regex.Matches: the tokens consume Dafny characters, which are Unicode scalar values. The compiled expression has no `u` flag (src/codeowners/parse-pattern.ts:113), so JavaScript consumes UTF-16 code units, and a character outside the Basic Multilingual Plane counts as two. Verdicts on paths holding such characters can differ. For example, `[^/]`, which `?` compiles to, makes `f?o` reject `f` + an emoji + `o` in JavaScript, while the model accepts it.
- Text.Trim and LineParser.Fields: whitespace is the ASCII space, tab, line feed, vertical tab, form feed and carriage return. The Unicode spaces and the byte-order mark that JavaScript's `trim` and `\s` also accept are left out.
- Sorting.SortOwners: strings are compared by Dafny characters (Unicode scalar values), not by UTF-16 code units. The two orders differ only for characters outside the Basic Multilingual Plane.
- ParsePattern.ParsePattern: `for (const ch of seg)` walks code points; the model walks Dafny characters, which is the same thing for strings without lone surrogates.
- Integer width is irrelevant here: line numbers and indices are unbounded integers.
- The file-parser case "should parse github example codeowners content" (__tests__/parse-file.test.ts:85-243) is not stated as a vector. `ResolverVectors.EmptyOwnersOverride` resolves paths against two of its rules.
- The regular-expression texts the file-parser and resolver tests expect (__tests__/parse-file.test.ts:22-52 and __tests__/filename-match.test.ts:95-125) are stated as token lists by the `ReadmeVectors.*Compiled` lemmas, not as `Regex.Source` strings. The rendering of tokens to text is stated in general by `Regex.UnescapeChars`, `Regex.BodyPlain` and `PatternProperties.UnanchoredNameSource`.
