/** Column descriptors and the per-column decisions of both generator
    variants: the storage type token (`_python_type_to_sqlalchemy`), the form
    field (`_python_type_to_wtforms`) and the validator list
    (`_generate_validators`). The two source files hold identical copies. */
module TypeMapping {
  import opened Wrappers
  import opened Strings
  import opened Values
  import Config

  /** One column as `_get_table_info` reports it: the lower-cased type class
      name as keyword, the server default as text, and the declared length. */
  datatype Column = Column(
    name: string,
    typeName: string,
    nullable: bool,
    default: Option<string>,
    primaryKey: bool,
    length: Option<int>)

  /** Python truthiness of the reported length: `None` and `0` are false. */
  predicate HasLength(length: Option<int>) {
    length.Some? && length.value != 0
  }

  /** `(n)` after a string type when the length is truthy. */
  function LengthSuffix(length: Option<int>): (r: string)
    ensures r == "" <==> !HasLength(length)
  {
    if HasLength(length) then "(" + IntToString(length.value) + ")" else ""
  }

  /** The keywords the first branch of the storage mapper catches. */
  predicate IsStringKeyword(k: string) {
    StartsWith(k, "varchar") || k == "string" || k == "text"
  }

  /** A storage token in the chosen spelling: bare for classic SQLAlchemy,
      behind `db.` for Flask-SQLAlchemy. */
  function Spelled(name: string, classic: bool): string {
    if classic then name else "db." + name
  }

  /** `_python_type_to_sqlalchemy`, branch for branch. The `text` test of the
      seventh branch can never succeed because the first branch already
      caught `text`. */
  function StorageType(k: string, length: Option<int>, classic: bool): (r: string)
    ensures r == Spelled(StorageName(Classify(k)), classic)
                 + (if IsStringKeyword(k) then LengthSuffix(length) else "")
  {
    if StartsWith(k, "varchar") || k == "string" || k == "text" then
      Spelled("String", classic) + LengthSuffix(length)
    else if k == "integer" then Spelled("Integer", classic)
    else if k == "float" || k == "numeric" then Spelled("Float", classic)
    else if k == "boolean" then Spelled("Boolean", classic)
    else if k == "datetime" then Spelled("DateTime", classic)
    else if k == "date" then Spelled("Date", classic)
    else if k == "text" then Spelled("Text", classic)
    else Spelled("String", classic)
  }

  /** The families of column keywords both mappers distinguish. */
  datatype Family = StringFamily | TextFamily | IntegerFamily | FloatFamily
                  | BooleanFamily | DateTimeFamily | DateFamily | OtherFamily

  /** An independent classification of a keyword, in the order the form
      mapper tests it. */
  function Classify(k: string): Family {
    if StartsWith(k, "varchar") || k == "string" then StringFamily
    else if k == "text" then TextFamily
    else if k == "integer" then IntegerFamily
    else if k == "float" || k == "numeric" then FloatFamily
    else if k == "boolean" then BooleanFamily
    else if k == "datetime" then DateTimeFamily
    else if k == "date" then DateFamily
    else OtherFamily
  }

  /** The storage token name of a family; the text family is stored as a
      string, and so is every unknown keyword. */
  function StorageName(f: Family): string {
    match f
    case StringFamily => "String"
    case TextFamily => "String"
    case IntegerFamily => "Integer"
    case FloatFamily => "Float"
    case BooleanFamily => "Boolean"
    case DateTimeFamily => "DateTime"
    case DateFamily => "Date"
    case OtherFamily => "String"
  }

  /** The configuration key of a family in `type_mapping` and
      `field_mapping`; unknown keywords use the `string` entry. */
  function FamilyKey(f: Family): string {
    match f
    case StringFamily => "string"
    case TextFamily => "text"
    case IntegerFamily => "integer"
    case FloatFamily => "float"
    case BooleanFamily => "boolean"
    case DateTimeFamily => "datetime"
    case DateFamily => "date"
    case OtherFamily => "string"
  }

  /** The `type_mapping` entry the storage mapper's result corresponds to:
      the family's own entry, except that `text` uses the `string` entry. */
  function StorageKeyIndex(f: Family): (i: nat)
    ensures i < 7
  {
    match f
    case StringFamily => 0
    case TextFamily => 0
    case IntegerFamily => 2
    case FloatFamily => 3
    case BooleanFamily => 4
    case DateTimeFamily => 5
    case DateFamily => 6
    case OtherFamily => 0
  }

  /** The storage token of a keyword agrees with entry `StorageKeyIndex` of
      `table`, which holds each token under a distinct key. */
  predicate MatchesTable(table: Entries, k: string, length: Option<int>, classic: bool)
    requires |table| == 7
  {
    var i := StorageKeyIndex(Classify(k));
    var suffix := if IsStringKeyword(k) then LengthSuffix(length) else "";
    Lookup(table, table[i].0) == Some(table[i].1)
    && table[i].1.Str?
    && StorageType(k, length, classic) == table[i].1.s + suffix
  }

  lemma FlaskTableMatches(k: string, length: Option<int>)
    ensures MatchesTable(Config.StrDict(Config.FlaskTypeMapping), k, length, false)
  {
    var table := Config.StrDict(Config.FlaskTypeMapping);
    DbTokens();
    assert NoDupKeys(table);
    Config.UniqueLookup(table, StorageKeyIndex(Classify(k)));
  }

  lemma ClassicTableMatches(k: string, length: Option<int>)
    ensures MatchesTable(Config.StrDict(Config.ClassicTypeMapping), k, length, true)
  {
    var table := Config.StrDict(Config.ClassicTypeMapping);
    assert NoDupKeys(table);
    Config.UniqueLookup(table, StorageKeyIndex(Classify(k)));
  }

  /** The hard-coded storage mapper agrees with the configured default
      `type_mapping` table of the chosen model section for every keyword,
      except that `text` gets the `string` entry (and its length) instead of
      the `text` entry; a length is rendered for the string family only. */
  lemma StorageTypeMatchesTypeMapping(k: string, length: Option<int>, classic: bool)
    ensures MatchesTable(
      Config.StrDict(if classic then Config.ClassicTypeMapping else Config.FlaskTypeMapping),
      k, length, classic)
  {
    if classic { ClassicTableMatches(k, length); } else { FlaskTableMatches(k, length); }
  }

  /** Each Flask-SQLAlchemy token is its classic token behind `db.`. */
  lemma DbTokens()
    ensures "db.String" == "db." + "String" && "db.Integer" == "db." + "Integer"
    ensures "db.Float" == "db." + "Float" && "db.Boolean" == "db." + "Boolean"
    ensures "db.DateTime" == "db." + "DateTime" && "db.Date" == "db." + "Date"
  {
  }

  /** `text` columns never get the Text token: they map exactly as `string`
      columns do. */
  lemma TextIsStoredAsString(length: Option<int>, classic: bool)
    ensures StorageType("text", length, classic) == StorageType("string", length, classic)
    ensures forall k :: StorageType(k, length, classic) != Spelled("Text", classic)
  {
    var p := if classic then 0 else 3;
    var text := Spelled("Text", classic);
    assert |text| == p + 4 && text[p + 1] == 'e';
    forall k ensures StorageType(k, length, classic) != text {
      var r := StorageType(k, length, classic);
      if IsStringKeyword(k) {
        assert |r| >= p + 6;
      } else if k == "integer" || k == "boolean" {
        assert |r| == p + 7;
      } else if k == "float" || k == "numeric" {
        assert |r| == p + 5;
      } else if k == "datetime" {
        assert |r| == p + 8;
      } else if k == "date" {
        assert r == Spelled("Date", classic);
        assert r[p + 1] == 'a';
      } else {
        assert |r| == p + 6;
      }
    }
  }

  /** The two spellings differ by the `db.` prefix only. */
  lemma StorageSpellings(k: string, length: Option<int>)
    ensures StorageType(k, length, false) == "db." + StorageType(k, length, true)
  {
    var suffix := LengthSuffix(length);
    if IsStringKeyword(k) {
      assert StorageType(k, length, false) == ("db." + "String") + suffix;
      assert StorageType(k, length, true) == "String" + suffix;
      assert ("db." + "String") + suffix == "db." + ("String" + suffix);
    } else if k == "integer" {
      assert StorageType(k, length, false) == "db." + "Integer";
    } else if k == "float" || k == "numeric" {
      assert StorageType(k, length, false) == "db." + "Float";
    } else if k == "boolean" {
      assert StorageType(k, length, false) == "db." + "Boolean";
    } else if k == "datetime" {
      assert StorageType(k, length, false) == "db." + "DateTime";
    } else if k == "date" {
      assert StorageType(k, length, false) == "db." + "Date";
    } else {
      assert StorageType(k, length, false) == "db." + "String";
    }
  }

  /** `_python_type_to_wtforms`: the `field_mapping` entry of the keyword's
      family (`string` for unknown keywords); the lookup of that entry is the
      only thing that can fail. */
  function FieldType(k: string, fieldMapping: Value): (r: Result<Value>)
    ensures r == Index(fieldMapping, FamilyKey(Classify(k)))
  {
    if StartsWith(k, "varchar") || k == "string" then Index(fieldMapping, "string")
    else if k == "text" then Index(fieldMapping, "text")
    else if k == "integer" then Index(fieldMapping, "integer")
    else if k == "float" || k == "numeric" then Index(fieldMapping, "float")
    else if k == "boolean" then Index(fieldMapping, "boolean")
    else if k == "datetime" then Index(fieldMapping, "datetime")
    else if k == "date" then Index(fieldMapping, "date")
    else Index(fieldMapping, "string")
  }

  /** With a field mapping that holds the seven family keys the form mapper
      never fails; with the default mapping `text` gets `TextAreaField`, and
      unknown keywords fall back to `StringField`. */
  lemma FieldTypeTotal(k: string, fieldMapping: Value)
    requires fieldMapping.Dict?
    requires forall key | key in Config.FamilyKeys :: key in Keys(fieldMapping.entries)
    ensures FieldType(k, fieldMapping).Ok?
  {
    var key := FamilyKey(Classify(k));
    assert key in Config.FamilyKeys by {
      match Classify(k)
      case StringFamily =>
      case TextFamily =>
      case IntegerFamily =>
      case FloatFamily =>
      case BooleanFamily =>
      case DateTimeFamily =>
      case DateFamily =>
      case OtherFamily =>
    }
  }


  const Required := "DataRequired()"
  const Email := "Email()"

  function LengthValidator(n: int): string {
    "Length(max=" + IntToString(n) + ")"
  }

  /** Position of a validator in the fixed order Required, Length, Email. */
  function ValidatorRank(v: string): nat {
    if v == Required then 0 else if v == Email then 2 else 1
  }

  lemma LengthValidatorRank(n: int)
    ensures ValidatorRank(LengthValidator(n)) == 1
  {
    assert LengthValidator(n)[0] == 'L';
  }

  /** `_generate_validators`: Required, Length and Email, each at most once and
      in that order. */
  function Validators(c: Column): (r: seq<string>)
    ensures Required in r <==> !c.nullable && !c.primaryKey
    ensures (c.typeName == "string" || c.typeName == "varchar") && HasLength(c.length)
      ==> LengthValidator(c.length.value) in r
    ensures !((c.typeName == "string" || c.typeName == "varchar") && HasLength(c.length))
      ==> forall i | 0 <= i < |r| :: ValidatorRank(r[i]) != 1
    ensures Email in r <==> Contains(Lower(c.name), "email")
    ensures forall i, j | 0 <= i < j < |r| :: ValidatorRank(r[i]) < ValidatorRank(r[j])
  {
    LengthValidatorRank(if c.length.Some? then c.length.value else 0);
    assert ValidatorRank(Required) == 0 && ValidatorRank(Email) == 2;
    (if !c.nullable && !c.primaryKey then [Required] else [])
    + (if (c.typeName == "string" || c.typeName == "varchar") && HasLength(c.length)
       then [LengthValidator(c.length.value)] else [])
    + (if Contains(Lower(c.name), "email") then [Email] else [])
  }
}
