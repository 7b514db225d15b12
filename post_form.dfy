/**
 * The post form: its field state, the amount validation, the switch to the
 * wallet view on a valid submission, and the post built and handed to the
 * post manager once the payment has succeeded.
 */
module PostForm {
  import opened Wrappers
  import opened Posts
  import opened Text
  import PostManager

  /** The smallest accepted payment, 0.001 TON, in nano-TON. */
  const MIN_AMOUNT: int := NANO_PER_TON / 1000

  const MIN_AMOUNT_ERROR: string := "Minimum payment is 0.001 TON"

  /** The amount field's initial text. */
  const DEFAULT_AMOUNT: string := "0.001"

  /** The parsed amount is a number (not NaN) and at least the minimum. */
  predicate AmountAcceptable(parsed: Option<int>) {
    parsed.Some? && parsed.value >= MIN_AMOUNT
  }

  /** An optional field as submitted: trimmed, and absent when nothing is left. */
  function OptionalField(s: string): Option<string> {
    var t := Trim(s);
    if t == [] then None else Some(t)
  }

  /** The post data handed on after a successful payment. */
  function BuildPayload(title: string, content: string, link: string, author: string,
                        txHash: string, amount: nat): PostDraft {
    PostDraft(Trim(title), Trim(content), OptionalField(link), OptionalField(author),
              true, Some(amount), Some(txHash), None)
  }

  /**
   * The payload always asks for a pin and carries the payment's amount and
   * transaction; its text fields are trimmed (trimming them again changes
   * nothing), and a link or author is absent exactly when it was blank.
   */
  lemma PayloadShape(title: string, content: string, link: string, author: string, txHash: string, amount: nat)
    ensures var d := BuildPayload(title, content, link, author, txHash, amount);
      && d.isPinned && d.amount == Some(amount) && d.txHash == Some(txHash)
      && d.title == Trim(title) && d.content == Trim(content)
      && Trim(d.title) == d.title && Trim(d.content) == d.content
      && (d.link == None <==> IsBlank(link)) && (d.author == None <==> IsBlank(author))
      && (d.link.Some? ==> d.link.value == Trim(link) && Trim(d.link.value) == d.link.value && d.link.value != [])
      && (d.author.Some? ==> d.author.value == Trim(author) && Trim(d.author.value) == d.author.value && d.author.value != [])
  {
    TrimIdempotent(title);
    TrimIdempotent(content);
    TrimIdempotent(link);
    TrimIdempotent(author);
    TrimEmptyIffBlank(link);
    TrimEmptyIffBlank(author);
  }

  /** A paid post is effectively pinned from its creation until an hour later, and not after. */
  lemma PaidPostPinnedForAnHour(title: string, content: string, link: string, author: string,
                                txHash: string, amount: nat, now: int, t: int)
    ensures IsCurrentlyPinned(PostManager.NewPost(BuildPayload(title, content, link, author, txHash, amount), now), t)
        <==> t < now + PIN_DURATION_MS
  {
    PostManager.NewPostPinWindow(BuildPayload(title, content, link, author, txHash, amount), now, t);
  }

  /** The submit button is enabled exactly when title and content each hold a non-whitespace character and no amount error is shown. */
  lemma CanSubmitIffNotBlank(form: Form)
    ensures form.CanSubmit() <==> !IsBlank(form.title) && !IsBlank(form.content) && form.amountError == []
  {
    TrimEmptyIffBlank(form.title);
    TrimEmptyIffBlank(form.content);
  }

  /** The state of one form instance. */
  class Form {
    /** `Number.parseFloat` read in nano-TON; `None` stands for NaN. */
    const parse: string -> Option<int>

    var title: string
    var content: string
    var link: string
    var author: string
    var customAmount: string
    var amountError: string
    var showWalletConnect: bool

    /** An empty form showing the default amount. */
    constructor (parse: string -> Option<int>)
      ensures this.parse == parse
      ensures title == [] && content == [] && link == [] && author == []
      ensures customAmount == DEFAULT_AMOUNT && amountError == [] && !showWalletConnect
    {
      this.parse := parse;
      title, content, link, author := [], [], [], [];
      customAmount := DEFAULT_AMOUNT;
      amountError := [];
      showWalletConnect := false;
    }

    /** The submit button is enabled: title and content not blank, no amount error shown. */
    predicate CanSubmit()
      reads this
    {
      Trim(title) != [] && Trim(content) != [] && amountError == []
    }

    /** `validateAmount`: accept and clear the error, or reject and show it. */
    method ValidateAmount(value: string) returns (ok: bool)
      modifies this`amountError
      ensures ok <==> AmountAcceptable(parse(value))
      ensures amountError == if ok then [] else MIN_AMOUNT_ERROR
    {
      var numValue := parse(value);
      if numValue.None? || numValue.value < MIN_AMOUNT {
        amountError := MIN_AMOUNT_ERROR;
        return false;
      }
      amountError := [];
      return true;
    }

    /** Typing in the amount field: store the text and validate it unless it is empty. */
    method ChangeAmount(value: string)
      modifies this`customAmount, this`amountError
      ensures customAmount == value
      ensures amountError == if value == [] then old(amountError)
                             else if AmountAcceptable(parse(value)) then [] else MIN_AMOUNT_ERROR
    {
      customAmount := value;
      if value != [] {
        var _ := ValidateAmount(value);
      }
    }

    /**
     * `handleFormSubmit`: with a blank title or content nothing happens; an
     * unacceptable amount shows the error and stays on the form; otherwise
     * the error is cleared and the wallet view opens. The fields themselves
     * never change.
     */
    method HandleFormSubmit() returns (advanced: bool)
      modifies this`amountError, this`showWalletConnect
      ensures advanced <==> Trim(title) != [] && Trim(content) != [] && AmountAcceptable(parse(customAmount))
      ensures showWalletConnect == (old(showWalletConnect) || advanced)
      ensures Trim(title) == [] || Trim(content) == [] ==> amountError == old(amountError)
      ensures Trim(title) != [] && Trim(content) != [] ==>
                amountError == if advanced then [] else MIN_AMOUNT_ERROR
    {
      if Trim(title) == [] || Trim(content) == [] {
        return false;
      }
      var ok := ValidateAmount(customAmount);
      if !ok {
        return false;
      }
      showWalletConnect := true;
      return true;
    }

    /**
     * `handlePaymentSuccess`: hand the trimmed, pinned post with the
     * payment's amount and transaction to the store, then reset every field
     * and close the wallet view.
     */
    method HandlePaymentSuccess(txHash: string, amount: nat, store: PostManager.PostStore, now: int)
      requires store.Valid()
      modifies this, store
      ensures store.Valid()
      ensures store.posts == [PostManager.NewPost(BuildPayload(old(title), old(content), old(link), old(author), txHash, amount), now)]
                             + old(store.posts)
      ensures title == [] && content == [] && link == [] && author == []
      ensures customAmount == DEFAULT_AMOUNT && amountError == [] && !showWalletConnect
    {
      var postData := BuildPayload(title, content, link, author, txHash, amount);
      store.AddPost(postData, now);
      title, content, link, author := [], [], [], [];
      customAmount := DEFAULT_AMOUNT;
      amountError := [];
      showWalletConnect := false;
    }

    /** `handleCancel`: back to the form with every field kept. */
    method HandleCancel()
      modifies this`showWalletConnect
      ensures !showWalletConnect
    {
      showWalletConnect := false;
    }
  }
}
