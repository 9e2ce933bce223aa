/** Criteria keys: `name__op` spellings and the bare field name of a key
    (ServiceQueryUtil). */
module QueryUtil {
  import opened Errors
  import opened Lang

  /** A criteria key normalised to `name op`, and the field it constrains. */
  datatype ParsedQueryField = ParsedQueryField(fullCriteria: string, fieldName: string)

  const CriteriaSeparator: string := "__"

  /** The operator names accepted after `__`. */
  predicate IsOperatorName(op: string) {
    op in {"gt", "gte", "lt", "lte", "ne"}
  }

  /** The comparison an operator name stands for. */
  function OperatorSymbol(op: string): string
    requires IsOperatorName(op)
  {
    if op == "gt" then ">"
    else if op == "gte" then ">="
    else if op == "lt" then "<"
    else if op == "lte" then "<="
    else "<>"
  }

  /** `parseCriteriaOperation`: the symbol for a known operator name, a
      PARAMS_ERROR for anything else. */
  function ParseCriteriaOperation(op: string): (r: Result<string>)
  {
    match op
    case "gt" => Ok(">")
    case "gte" => Ok(">=")
    case "lt" => Ok("<")
    case "lte" => Ok("<=")
    case "ne" => Ok("<>")
    case _ => Raise(ParamsError)
  }

  /** Exactly the five operator names are accepted, each giving its symbol;
      anything else is a PARAMS_ERROR. */
  lemma ParseCriteriaOperationSpec(op: string)
    ensures var r := ParseCriteriaOperation(op);
      && (r.Ok? <==> IsOperatorName(op))
      && (r.Ok? ==> r.value == OperatorSymbol(op) && r.value in {">", ">=", "<", "<=", "<>"})
      && (r.Err? ==> r.failure == RestDsl(ParamsError))
  {
  }

  /** `getPlainFieldName`: the text before the first space. */
  function PlainFieldName(key: string): (name: string)
    ensures ' ' !in name
    ensures ' ' !in key ==> name == key
    ensures StartsWith(key, name) && (|name| == |key| || key[|name|] == ' ')
  {
    var k := IndexOf(key, ' ');
    assert k >= 0 ==> Split(key, ' ')[0] == key[..k];
    Split(key, ' ')[0]
  }

  /** `parseQueryField`. The separator `__` is searched as the pair `_`, `_`. */
  function ParseQueryField(key: string): (r: Result<ParsedQueryField>)
    ensures r.Err? ==> r.failure == RestDsl(ParamsError)
  {
    if HasSeparator(key) then
      var split := SplitOnPair(key, '_', '_');
      if |split| != 2 then Raise(ParamsError)
      else
        var op :- ParseCriteriaOperation(split[1]);
        Ok(ParsedQueryField(split[0] + " " + op, split[0]))
    else Ok(ParsedQueryField(key, PlainFieldName(key)))
  }

  /** Whether a key contains the separator `__`. */
  predicate HasSeparator(key: string) {
    ContainsPair(key, '_', '_')
  }

  /** A field name that can carry an operator suffix: it holds no `__` and does
      not end in `_`, so the separator is the `__` right after it. */
  predicate SuffixableName(x: string) {
    !HasSeparator(x) && (x == [] || x[|x| - 1] != '_')
  }

  lemma SplitAtSeparator(x: string, y: string)
    requires SuffixableName(x)
    ensures SplitOnPair(x + "__" + y, '_', '_') == [x] + SplitOnPair(y, '_', '_')
  {
    FirstPair(x, '_', '_', y);
    var s := x + "__" + y;
    assert s[..|x|] == x;
    assert s[|x| + 2..] == y;
  }

  /** `x__gt`, `x__gte`, `x__lt`, `x__lte` and `x__ne` normalise to `x` followed
      by a space and the operator's symbol, on the field `x`. */
  lemma ParseOperatorSuffix(x: string, op: string)
    requires SuffixableName(x) && IsOperatorName(op)
    ensures ParseQueryField(x + "__" + op) == Ok(ParsedQueryField(x + " " + OperatorSymbol(op), x))
  {
    SplitAtSeparator(x, op);
    FirstPair(x, '_', '_', op);
  }

  /** A second separator after the first one is refused with PARAMS_ERROR. */
  lemma ParseTwoSeparators(x: string, y: string)
    requires SuffixableName(x) && HasSeparator(y)
    ensures ParseQueryField(x + "__" + y) == Err(RestDsl(ParamsError))
  {
    SplitAtSeparator(x, y);
    FirstPair(x, '_', '_', y);
  }

  /** Any suffix other than the five operator names, including the empty one
      and `le`, is refused with PARAMS_ERROR. */
  lemma ParseUnknownSuffix(x: string, op: string)
    requires SuffixableName(x) && !HasSeparator(op) && !IsOperatorName(op)
    ensures ParseQueryField(x + "__" + op) == Err(RestDsl(ParamsError))
  {
    SplitAtSeparator(x, op);
    FirstPair(x, '_', '_', op);
  }

  /** A key without `__` is kept as written; its field is the text before the
      first space, so `rating >=` constrains `rating`. */
  lemma ParseVerbatim(key: string)
    requires !HasSeparator(key)
    ensures ParseQueryField(key) == Ok(ParsedQueryField(key, PlainFieldName(key)))
  {
  }

  /** `x op` holds no `__` when `x` holds none, does not end in `_`, and `op`
      holds no `_`. */
  lemma NoSeparatorAfterSpace(x: string, sym: string)
    requires SuffixableName(x) && '_' !in sym
    ensures !HasSeparator(x + " " + sym)
  {
    var key := x + " " + sym;
    IndexOfPairSpec(x, '_', '_', 0);
    IndexOfPairSpec(key, '_', '_', 0);
    forall i | 0 <= i
      ensures !PairAt(key, i, '_', '_')
    {
      if i + 1 < |x| {
        assert !PairAt(x, i, '_', '_');
      } else if i + 1 < |key| {
        if i < |x| { assert key[i + 1] == ' '; }
        else if i == |x| { assert key[i] == ' '; }
        else { assert key[i] == sym[i - |x| - 1]; }
      }
    }
  }

  /** Both spellings of a comparison denote the same criterion: `x__gte` and
      `x >=` parse alike. */
  lemma BothSpellingsAgree(x: string, op: string)
    requires SuffixableName(x) && ' ' !in x && IsOperatorName(op)
    ensures ParseQueryField(x + "__" + op) == ParseQueryField(x + " " + OperatorSymbol(op))
  {
    ParseOperatorSuffix(x, op);
    var key := x + " " + OperatorSymbol(op);
    NoSeparatorAfterSpace(x, OperatorSymbol(op));
    assert key[..|x|] == x;
    assert key[|x|] == ' ';
    assert PlainFieldName(key) == x;
  }

  /** Parsing is idempotent on names without spaces: the normalised key parses
      to itself and the same field. */
  lemma ParseIdempotent(key: string, p: ParsedQueryField)
    requires ParseQueryField(key) == Ok(p) && ' ' !in p.fieldName
    ensures ParseQueryField(p.fullCriteria) == Ok(p)
  {
    if HasSeparator(key) {
      var k := IndexOfPair(key, '_', '_');
      IndexOfPairSpec(key, '_', '_', 0);
      var x := key[..k];
      var y := key[k + 2..];
      assert key == x + "__" + y;
      assert !HasSeparator(x) by {
        IndexOfPairSpec(x, '_', '_', 0);
        forall i | 0 <= i ensures !PairAt(x, i, '_', '_') {
          if i + 1 < |x| {
            assert !PairAt(key, i, '_', '_');
            assert x[i] == key[i] && x[i + 1] == key[i + 1];
          }
        }
      }
      assert x == [] || x[|x| - 1] != '_' by {
        if x != [] {
          assert !PairAt(key, k - 1, '_', '_');
          assert key[k] == '_' && x[|x| - 1] == key[k - 1];
        }
      }
      SplitAtSeparator(x, y);
      if HasSeparator(y) {
        ParseTwoSeparators(x, y);
      } else if IsOperatorName(y) {
        ParseOperatorSuffix(x, y);
        BothSpellingsAgree(x, y);
      } else {
        ParseUnknownSuffix(x, y);
      }
    }
  }
}
